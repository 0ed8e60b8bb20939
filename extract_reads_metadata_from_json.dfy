/**
 * Extraction of read-group metadata from the JSON document the sequencing
 * platform writes for a sample: the read length is read off the read
 * structure, the target capture kit and the library selection are decided
 * from the library's data type, and one record per run, lane and library (for
 * the genomic data commons) or per read group (for dbGaP) is built.  The
 * document is an input; reading it from the bucket is not modelled, only the
 * check on the bucket's name.
 */
module ExtractReadsMetadataFromJson {
  import opened Outcome
  import opened Python
  import opened Each
  import opened Comprehension

  /** `DATA_TYPE_CONVERSION`: the data types of the platform and their names in
      the genomic data commons. */
  const DataTypeConversion: Dict := [("Exome", Str("WXS")), ("WGS", Str("WGS")), ("RNA", Str("RNA"))]

  const BroadSequencingCenter := "BI"
  const GdcTwistCaptureKit := "Custom Twist Broad Exome v1.0 - 35.0 Mb"
  const MercuryTwistCaptureKit := "Kit,xGen Hybridization + Wash(96Rxn/BX)"
  const GdcNexteraCaptureKit := "Nextera Rapid Capture Exome v1.2"
  const IlluminaPlatform := "Illumina"

  // ---------------------------------------------------------------------------
  // The bucket check of `get_json_contents`

  /** The bucket and the file path `get_json_contents` reads the document from:
      the path is stripped of "/" and split on "/", the fourth part is the bucket
      and the parts after it, joined by "/", the file; a bucket not starting with
      "fc-" is refused. */
  function JsonLocation(path: string): Result<(string, string)> {
    var parts := Split(StripChar(path, '/'), '/');
    if |parts| < 4 then Err(IndexError)
    else if !StartsWith(parts[3], "fc-") then
      Err(ValueError("Bucket name must start with 'fc-', instead got: '" + parts[3] + "'"))
    else Ok((parts[3], Join("/", parts[4..])))
  }

  /** The location is accepted iff the path has a fourth part starting with "fc-",
      and the bucket then is that part. */
  lemma JsonLocationMeans(path: string)
    ensures var parts := Split(StripChar(path, '/'), '/');
            && (JsonLocation(path).Ok? <==> |parts| >= 4 && StartsWith(parts[3], "fc-"))
            && (|parts| < 4 ==> JsonLocation(path) == Err(IndexError))
            && (JsonLocation(path).Ok? ==>
                  var bucket := JsonLocation(path).value.0;
                  bucket == parts[3] && '/' !in bucket && StartsWith(bucket, "fc-"))
  {
    SplitParts(StripChar(path, '/'), '/');
  }

  /** Splitting at a first separator: the text before it, then the split of the rest. */
  lemma SplitAtFirst(a: string, t: string, c: char)
    requires c !in a
    ensures Split(a + [c] + t, c) == [a] + Split(t, c)
  {
    var s := a + [c] + t;
    BeforeSeparator(a, t, c);
    assert s[|a| + 1..] == t;
  }

  /** The split of four separated parts followed by a rest. */
  lemma SplitFour(a: string, b: string, c: string, d: string, rest: string)
    requires '/' !in a && '/' !in b && '/' !in c && '/' !in d
    ensures Split(a + "/" + (b + "/" + (c + "/" + (d + "/" + rest))), '/') == [a, b, c, d] + Split(rest, '/')
  {
    SplitAtFirst(a, b + "/" + (c + "/" + (d + "/" + rest)), '/');
    SplitAtFirst(b, c + "/" + (d + "/" + rest), '/');
    SplitAtFirst(c, d + "/" + rest, '/');
    SplitAtFirst(d, rest, '/');
  }

  /** A console link `https://<host>/<bucket>/<file>` passes the bucket check when the
      bucket starts with "fc-", and its bucket and file path are read back. */
  lemma ConsoleLinkLocation(host: string, bucket: string, file: string)
    requires '/' !in host && '/' !in bucket && StartsWith(bucket, "fc-")
    requires file != [] && file[|file| - 1] != '/'
    ensures JsonLocation("https://" + (host + "/" + (bucket + "/" + file))) == Ok((bucket, file))
  {
    var q := host + "/" + (bucket + "/" + file);
    var p := "https://" + q;
    assert p == "https:" + "/" + ("" + "/" + q);
    assert p[0] == 'h' && p[|p| - 1] == file[|file| - 1];
    assert StripChar(p, '/') == p;
    SplitFour("https:", "", host, bucket, file);
    JoinSplit(file, '/');
  }

  /** For a `gs://<bucket>/<folder>/<rest>` path the fourth part is the folder, so
      the bucket check is made on the folder and the bucket is never looked at. */
  lemma BucketPathLocation(bucket: string, folder: string, rest: string)
    requires '/' !in bucket && '/' !in folder && rest != [] && rest[|rest| - 1] != '/'
    ensures JsonLocation("gs://" + (bucket + "/" + (folder + "/" + rest))).Ok? <==> StartsWith(folder, "fc-")
    ensures JsonLocation("gs://" + (bucket + "/" + (folder + "/" + rest))).Ok? ==>
              JsonLocation("gs://" + (bucket + "/" + (folder + "/" + rest))).value.0 == folder
  {
    var q := bucket + "/" + (folder + "/" + rest);
    var p := "gs://" + q;
    assert p == "gs:" + "/" + ("" + "/" + q);
    assert p[0] == 'g' && p[|p| - 1] == rest[|rest| - 1];
    assert StripChar(p, '/') == p;
    SplitFour("gs:", "", bucket, folder, rest);
    JsonLocationMeans(p);
  }

  // ---------------------------------------------------------------------------
  // Read length

  /** `get_read_length_from_read_structure`: the text before the first "T" is
      the read length when int() accepts it, and otherwise the sum of the numbers
      in it. */
  function ReadLengthFromReadStructure(readStructure: string): int {
    var firstRead := Before(readStructure, 'T');
    var n := ParseInt(firstRead);
    if n.Ok? then n.value else SumOfNumbers(DigitRuns(firstRead))
  }

  /** A plain number before the first "T" is the read length; text int() refuses
      gives the sum of its numbers, which is 0 when it has no digits. */
  lemma ReadLengthMeans(readStructure: string)
    ensures var firstRead := Before(readStructure, 'T');
            && (firstRead != [] && AllDigits(firstRead) ==>
                  ReadLengthFromReadStructure(readStructure) == DigitsValue(firstRead))
            && (ParseInt(firstRead).Err? ==>
                  ReadLengthFromReadStructure(readStructure) == SumOfNumbers(DigitRuns(firstRead)))
            && ((forall k :: 0 <= k < |firstRead| ==> !IsDigit(firstRead[k])) ==>
                  ReadLengthFromReadStructure(readStructure) == 0)
  {
    var firstRead := Before(readStructure, 'T');
    if firstRead != [] && AllDigits(firstRead) {
      ParseIntOfDigits(firstRead);
    }
    if forall k :: 0 <= k < |firstRead| ==> !IsDigit(firstRead[k]) {
      DigitRunsOf(firstRead);
      NoDigitsNoInt(firstRead);
    }
  }

  /** int() refuses a text without digits. */
  lemma NoDigitsNoInt(s: string)
    requires forall k :: 0 <= k < |s| ==> !IsDigit(s[k])
    ensures ParseInt(s).Err?
  {
    var t := Strip(s);
    StripKeepsChars(s);
    assert forall k :: 0 <= k < |t| ==> !IsDigit(t[k]);
    assert Decimal(t).None? by {
      if |t| > 1 {
        assert !IsDigit(t[1..][0]);
      }
      if t != [] {
        assert !IsDigit(t[0]);
      }
    }
  }

  /** The sum of numbers agrees with int() on a plain number, so the two ways of
      reading the length never disagree where both apply. */
  lemma SumAgreesWithInt(firstRead: string)
    requires firstRead != [] && AllDigits(firstRead)
    ensures ParseInt(firstRead) == Ok(DigitsValue(firstRead))
    ensures SumOfNumbers(DigitRuns(firstRead)) == DigitsValue(firstRead)
  {
    DigitRunsOf(firstRead);
    ParseIntOfDigits(firstRead);
  }

  /** A read structure whose first read is a plain number. */
  lemma ReadLengthOfPlainStructure()
    ensures ReadLengthFromReadStructure("76T8B8B76T") == 76
  {
    assert "76T8B8B76T" == "76" + "T" + "8B8B76T";
    BeforeSeparator("76", "8B8B76T", 'T');
    ParseIntOfDigits("76");
    assert "76"[..1] == "7";
  }

  /** A read structure with molecular indices before the template: the lengths of
      its first read's segments are added up. */
  lemma ReadLengthOfUmiStructure()
    ensures ReadLengthFromReadStructure("3M2S71T8B8B3M2S71T") == 76
  {
    assert "3M2S71T8B8B3M2S71T" == "3M2S71" + "T" + "8B8B3M2S71T";
    BeforeSeparator("3M2S71", "8B8B3M2S71T", 'T');
    UmiFirstReadNotInt();
    UmiFirstReadRuns();
    assert "71"[..1] == "7";
    assert ["3", "2", "71"][1..] == ["2", "71"];
    assert ["2", "71"][1..] == ["71"];
  }

  lemma UmiFirstReadNotInt()
    ensures ParseInt("3M2S71").Err?
  {
    var first := "3M2S71";
    NumeralNotSpace(first[0]);
    NumeralNotSpace(first[5]);
    StripUnpadded(first);
    assert !IsDigit(first[1]);
  }

  lemma UmiFirstReadRuns()
    ensures DigitRuns("3M2S71") == ["3", "2", "71"]
  {
    DigitRunsOf("71");
    assert "S71"[1..] == "71";
    assert DigitRuns("S71") == ["71"];
    assert LeadingDigits("S71") == "";
    assert LeadingDigits("2S71") == "2";
    assert "2S71"[1..] == "S71";
    assert DigitRuns("2S71") == ["2", "71"];
    assert "M2S71"[1..] == "2S71";
    assert DigitRuns("M2S71") == ["2", "71"];
    assert LeadingDigits("M2S71") == "";
    assert LeadingDigits("3M2S71") == "3";
    assert "3M2S71"[1..] == "M2S71";
  }

  // ---------------------------------------------------------------------------
  // Capture kit, library selection, molecular barcode

  /** One turn of the loop of `determine_target_capture_kit`: an entry keyed
      "target_capture_kit_name" replaces the kit name with its value. */
  function KitStep(kitName: Value, entry: Value): Result<Value> {
    var key :- Subscript(entry, "key");
    if key == Str("target_capture_kit_name") then Subscript(entry, "value") else Ok(kitName)
  }

  /** The kit name the loop leaves: "" to start with, then one turn per entry. */
  function LastKitName(submissions: seq<Value>): Result<Value> {
    if submissions == [] then Ok(Str(""))
    else
      var front :- LastKitName(submissions[..|submissions| - 1]);
      KitStep(front, submissions[|submissions| - 1])
  }

  /** Whether a submission-metadata entry names the kit. */
  predicate NamesKit(entry: Value) {
    entry.Obj? && Get(entry.fields, "key") == Some(Str("target_capture_kit_name"))
  }

  /** When every entry has a key and the kit entries a value, the loop finishes,
      with the value of the last kit entry, or "" when there is none. */
  lemma {:induction false} LastKitNameMeans(submissions: seq<Value>, i: nat)
    requires forall j :: 0 <= j < |submissions| ==> submissions[j].Obj? && HasKey(submissions[j].fields, "key")
    requires forall j :: 0 <= j < |submissions| && NamesKit(submissions[j]) ==> HasKey(submissions[j].fields, "value")
    ensures LastKitName(submissions).Ok?
    ensures (forall j :: 0 <= j < |submissions| ==> !NamesKit(submissions[j])) ==> LastKitName(submissions) == Ok(Str(""))
    ensures i < |submissions| && NamesKit(submissions[i]) && (forall j :: i < j < |submissions| ==> !NamesKit(submissions[j]))
            ==> LastKitName(submissions) == Ok(At(submissions[i], "value"))
  {
    if submissions != [] {
      var n := |submissions| - 1;
      var front := submissions[..n];
      assert forall j :: 0 <= j < n ==> front[j] == submissions[j];
      LastKitNameMeans(front, i);
      var last := submissions[n];
      var key := Get(last.fields, "key").value;
      assert Subscript(last, "key") == Ok(key);
      if NamesKit(last) {
        assert Subscript(last, "value") == Ok(At(last, "value"));
      } else {
        assert key != Str("target_capture_kit_name");
      }
    }
  }

  /** The loop's next kit name is one more turn on the last one. */
  lemma LastKitNameStep(submissions: seq<Value>, i: nat)
    requires i < |submissions| && LastKitName(submissions[..i]).Ok?
    ensures LastKitName(submissions[..i + 1]) == KitStep(LastKitName(submissions[..i]).value, submissions[i])
  {
    assert submissions[..i + 1][..i] == submissions[..i];
  }

  /** The decision of `determine_target_capture_kit` once the kit name is known. */
  function CaptureKitFor(dataType: Value, kitName: Value): string {
    if dataType == Str("Exome") then
      (if kitName == Str(MercuryTwistCaptureKit) then GdcTwistCaptureKit else GdcNexteraCaptureKit)
    else if dataType == Str("Custom_Selection") then "Unknown"
    else "Not Applicable"
  }

  /** An exome library gets the Twist kit iff the Mercury kit name says so, and
      the Nextera kit otherwise; a custom selection gets "Unknown" and every other
      data type "Not Applicable". */
  lemma CaptureKitForMeans(dataType: Value, kitName: Value)
    ensures var r := CaptureKitFor(dataType, kitName);
            && (r == GdcTwistCaptureKit <==> dataType == Str("Exome") && kitName == Str(MercuryTwistCaptureKit))
            && (r == GdcNexteraCaptureKit <==> dataType == Str("Exome") && kitName != Str(MercuryTwistCaptureKit))
            && (r == "Unknown" <==> dataType == Str("Custom_Selection"))
            && (r == "Not Applicable" <==> dataType != Str("Exome") && dataType != Str("Custom_Selection"))
  {
  }

  /** What `determine_target_capture_kit` returns. */
  function TargetCaptureKit(dataType: Value, submissionsMetadata: Value): Result<string> {
    var items :- Iterate(submissionsMetadata);
    var kitName :- LastKitName(items);
    Ok(CaptureKitFor(dataType, kitName))
  }

  /** `determine_target_capture_kit`: the loop overwrites the kit name at every
      kit entry, then the data type decides. */
  method DetermineTargetCaptureKit(dataType: Value, submissionsMetadata: Value) returns (r: Result<string>)
    ensures r == TargetCaptureKit(dataType, submissionsMetadata)
  {
    var items := Iterate(submissionsMetadata);
    if items.Err? {
      return Err(items.error);
    }
    var submissions := items.value;
    var kitName := Str("");
    var i := 0;
    while i < |submissions|
      invariant 0 <= i <= |submissions|
      invariant LastKitName(submissions[..i]) == Ok(kitName)
    {
      LastKitNameStep(submissions, i);
      var key := Subscript(submissions[i], "key");
      if key.Err? {
        LastKitNameErrPersists(submissions, i + 1);
        return Err(key.error);
      }
      if key.value == Str("target_capture_kit_name") {
        var value := Subscript(submissions[i], "value");
        if value.Err? {
          LastKitNameErrPersists(submissions, i + 1);
          return Err(value.error);
        }
        kitName := value.value;
      }
      i := i + 1;
    }
    assert submissions[..i] == submissions;
    return Ok(CaptureKitFor(dataType, kitName));
  }

  lemma {:induction false} LastKitNameErrPersists(submissions: seq<Value>, k: nat)
    requires k <= |submissions| && LastKitName(submissions[..k]).Err?
    ensures LastKitName(submissions) == LastKitName(submissions[..k])
    decreases |submissions| - k
  {
    if k < |submissions| {
      assert submissions[..k + 1][..k] == submissions[..k];
      LastKitNameErrPersists(submissions, k + 1);
    } else {
      assert submissions[..k] == submissions;
    }
  }

  /** `determine_library_selection`. */
  function LibrarySelection(productType: Value): string {
    if productType == Str("Exome") then "HybridSelection"
    else if productType == Str("RNA") then "ShortRangePCR"
    else "Random"
  }

  /** Exome is hybrid selection, RNA short-range PCR and everything else random. */
  lemma LibrarySelectionMeans(productType: Value)
    ensures var r := LibrarySelection(productType);
            && (r == "HybridSelection" <==> productType == Str("Exome"))
            && (r == "ShortRangePCR" <==> productType == Str("RNA"))
            && (r == "Random" <==> productType != Str("Exome") && productType != Str("RNA"))
  {
  }

  /** `extract_molecular_barcode_name_and_sequence`; `json.loads` is the decoder
      it is given. */
  function MolecularBarcode(loads: string -> Result<Value>, scheme: Value): Result<(Value, string)> {
    if !scheme.Str? then Err(TypeError("the JSON object must be str"))
    else
      var indexing :- loads(scheme.s);
      var name :- Subscript(indexing, "name");
      var hints :- Subscript(indexing, "mapHintToSequence");
      var p5 :- Subscript(hints, "P5");
      var p7 :- Subscript(hints, "P7");
      Ok((name, Show(p5) + "-" + Show(p7)))
  }

  /** The name is copied and the sequence is P5, "-", P7, which split back apart
      when P5 holds no "-". */
  lemma MolecularBarcodeMeans(loads: string -> Result<Value>, scheme: Value)
    requires MolecularBarcode(loads, scheme).Ok?
    ensures var indexing := loads(scheme.s).value;
            var hints := At(indexing, "mapHintToSequence");
            var (name, sequence) := MolecularBarcode(loads, scheme).value;
            && name == At(indexing, "name")
            && sequence == Show(At(hints, "P5")) + "-" + Show(At(hints, "P7"))
            && ('-' !in Show(At(hints, "P5")) ==> Before(sequence, '-') == Show(At(hints, "P5")))
  {
    var indexing := loads(scheme.s).value;
    var hints := At(indexing, "mapHintToSequence");
    assert Lookup(indexing.fields, "name").value == At(indexing, "name");
    assert Lookup(indexing.fields, "mapHintToSequence").value == hints;
    assert Lookup(hints.fields, "P5").value == At(hints, "P5");
    assert Lookup(hints.fields, "P7").value == At(hints, "P7");
    var p5 := Show(At(hints, "P5"));
    if '-' !in p5 {
      BeforeSeparator(p5, Show(At(hints, "P7")), '-');
    }
  }

  // ---------------------------------------------------------------------------
  // Records for the genomic data commons

  /** The keys of the attributes of a record of `extract_reads_data_from_json_gdc`. */
  const GdcAttributeKeys: seq<string> :=
    ["aggregation_project", "sample_identifier", "flow_cell_barcode", "experiment_name", "sequencing_center",
     "platform", "library_selection", "data_type", "library_name", "lane_number", "is_paired_end", "read_length",
     "target_capture_kit"]

  lemma GdcKeysDistinct()
    ensures Distinct(GdcAttributeKeys)
  {
  }

  /** `get_read_length_from_read_structure` on a JSON value: only text has `split`. */
  function ReadLengthOf(readStructure: Value): Result<int> {
    if readStructure.Str? then Ok(ReadLengthFromReadStructure(readStructure.s)) else Err(AttributeError("split"))
  }

  /** What the loop body of `extract_reads_data_from_json_gdc` reads for one
      library of one lane of one run, before it decides the kit. */
  datatype GdcReads = GdcReads(dataType: Value, converted: Value, aggProject: Value, barcode: Value, family: Value,
                               libraryName: Value, laneNumber: int, paired: Value, readLength: int)

  /** The reads from the library and the run up to the library name. */
  function LibraryReads(run: Value, library: Value): Result<(Value, Value, Value, Value, Value, Value)> {
    var dataType :- Subscript(library, "dataType");
    var converted :- DictIndex(DataTypeConversion, dataType);
    var aggProject :- Subscript(library, "researchProjectId");
    var barcode :- Subscript(run, "flowcellBarcode");
    var family :- Subscript(library, "productFamily");
    var libraryName :- Subscript(library, "library");
    Ok((dataType, converted, aggProject, barcode, family, libraryName))
  }

  /** The reads that follow: lane number, paired-end flag and read length. */
  function LaneReads(run: Value, lane: Value): Result<(int, Value, int)> {
    var laneName :- Subscript(lane, "name");
    var laneNumber :- PyInt(laneName);
    var paired :- Subscript(run, "pairedRun");
    var structure :- Subscript(run, "setupReadStructure");
    var readLength :- ReadLengthOf(structure);
    Ok((laneNumber, paired, readLength))
  }

  /** All reads before the kit, in the order the code makes them. */
  function ReadGdc(run: Value, lane: Value, library: Value): Result<GdcReads> {
    var l :- LibraryReads(run, library);
    var n :- LaneReads(run, lane);
    Ok(GdcReads(l.0, l.1, l.2, l.3, l.4, l.5, n.0, n.1, n.2))
  }

  /** The kit of a library: its submission metadata, then the decision. */
  function LibraryKit(library: Value, dataType: Value): Result<string> {
    var submissions :- Subscript(library, "submissionMetadata");
    TargetCaptureKit(dataType, submissions)
  }

  /** The values of a record's attributes, in the order of `GdcAttributeKeys`. */
  function GdcAttributeValues(alias: string, r: GdcReads, kit: string): (vs: seq<Value>)
    ensures |vs| == |GdcAttributeKeys|
  {
    [r.aggProject, Str(alias), r.barcode, Str(alias + "." + Show(r.converted) + "." + Show(r.aggProject)),
     Str(BroadSequencingCenter), Str(IlluminaPlatform), Str(LibrarySelection(r.family)), r.converted, r.libraryName,
     Int(r.laneNumber), r.paired, Int(r.readLength), Str(kit)]
  }

  /** The record the reads and the kit make. */
  function GdcRecordOf(alias: string, r: GdcReads, kit: string): Value {
    Obj([("attributes", Obj(Display(GdcAttributeKeys, GdcAttributeValues(alias, r, kit))))])
  }

  /** The record of one library of one lane of one run. */
  function GdcRecord(run: Value, lane: Value, library: Value, alias: string): Result<Value> {
    var r :- ReadGdc(run, lane, library);
    var kit :- LibraryKit(library, r.dataType);
    Ok(GdcRecordOf(alias, r, kit))
  }

  /** The table converts "Exome" to "WXS" and keeps "WGS" and "RNA". */
  lemma ConversionGet(k: string)
    ensures Get(DataTypeConversion, k) ==
              if k == "Exome" then Some(Str("WXS")) else if k == "WGS" then Some(Str("WGS"))
              else if k == "RNA" then Some(Str("RNA")) else None
  {
    var d := DataTypeConversion;
    assert d[0].0 == "Exome" && d[1..][0].0 == "WGS" && d[1..][1..][0].0 == "RNA" && d[1..][1..][1..] == [];
    assert Get(d, k) == (if k == "Exome" then Some(Str("WXS")) else Get(d[1..], k));
    assert Get(d[1..], k) == (if k == "WGS" then Some(Str("WGS")) else Get(d[1..][1..], k));
    assert Get(d[1..][1..], k) == (if k == "RNA" then Some(Str("RNA")) else None);
  }

  /** A data type the conversion table does not know raises KeyError. */
  lemma GdcRecordUnknownDataType(run: Value, lane: Value, library: Value, alias: string)
    requires library.Obj? && HasKey(library.fields, "dataType") && At(library, "dataType").Str?
    requires At(library, "dataType").s !in ["Exome", "WGS", "RNA"]
    ensures GdcRecord(run, lane, library, alias) == Err(KeyError(At(library, "dataType").s))
  {
    var dataType := At(library, "dataType");
    assert Subscript(library, "dataType") == Ok(dataType);
    ConversionGet(dataType.s);
  }

  /** A data type the table knows is one of its three keys, and only "Exome" is
      renamed. */
  lemma ConvertedDataType(dataType: Value)
    requires DictIndex(DataTypeConversion, dataType).Ok?
    ensures dataType in [Str("Exome"), Str("WGS"), Str("RNA")]
    ensures DictIndex(DataTypeConversion, dataType).value ==
              if dataType == Str("Exome") then Str("WXS") else dataType
  {
    ConversionGet(dataType.s);
  }

  /** The reads come from the keys of the library, the lane and the run: the data
      type converted by the table, and the lane number by int() of the lane's name. */
  lemma ReadGdcMeans(run: Value, lane: Value, library: Value)
    requires ReadGdc(run, lane, library).Ok?
    ensures var r := ReadGdc(run, lane, library).value;
            var dataType := At(library, "dataType");
            && r.dataType == dataType && r.aggProject == At(library, "researchProjectId")
            && r.barcode == At(run, "flowcellBarcode") && r.family == At(library, "productFamily")
            && r.libraryName == At(library, "library") && r.paired == At(run, "pairedRun")
            && (dataType == Str("Exome") ==> r.converted == Str("WXS"))
            && (dataType != Str("Exome") ==> r.converted == dataType && dataType in [Str("WGS"), Str("RNA")])
            && PyInt(At(lane, "name")) == Ok(r.laneNumber)
            && At(run, "setupReadStructure").Str?
            && r.readLength == ReadLengthFromReadStructure(At(run, "setupReadStructure").s)
  {
    LibraryReadsMeans(run, library);
    LaneReadsMeans(run, lane);
  }

  lemma LibraryReadsMeans(run: Value, library: Value)
    requires LibraryReads(run, library).Ok?
    ensures var l := LibraryReads(run, library).value;
            var dataType := At(library, "dataType");
            && l.0 == dataType && l.2 == At(library, "researchProjectId") && l.3 == At(run, "flowcellBarcode")
            && l.4 == At(library, "productFamily") && l.5 == At(library, "library")
            && (dataType == Str("Exome") ==> l.1 == Str("WXS"))
            && (dataType != Str("Exome") ==> l.1 == dataType && dataType in [Str("WGS"), Str("RNA")])
  {
    assert Subscript(library, "dataType") == Ok(At(library, "dataType"));
    ConvertedDataType(At(library, "dataType"));
    assert Subscript(library, "researchProjectId") == Ok(At(library, "researchProjectId"));
    assert Subscript(run, "flowcellBarcode") == Ok(At(run, "flowcellBarcode"));
    assert Subscript(library, "productFamily") == Ok(At(library, "productFamily"));
    assert Subscript(library, "library") == Ok(At(library, "library"));
  }

  lemma LaneReadsMeans(run: Value, lane: Value)
    requires LaneReads(run, lane).Ok?
    ensures var n := LaneReads(run, lane).value;
            && PyInt(At(lane, "name")) == Ok(n.0) && n.1 == At(run, "pairedRun")
            && At(run, "setupReadStructure").Str? && n.2 == ReadLengthFromReadStructure(At(run, "setupReadStructure").s)
  {
    assert Subscript(lane, "name") == Ok(At(lane, "name"));
    assert Subscript(run, "pairedRun") == Ok(At(run, "pairedRun"));
    assert Subscript(run, "setupReadStructure") == Ok(At(run, "setupReadStructure"));
  }

  /** The record carries the reads under their keys: the experiment name is the
      alias, the converted data type and the project joined by dots, the centre
      and the platform are fixed, and the selection follows the product family. */
  lemma GdcRecordOfFields(alias: string, r: GdcReads, kit: string)
    ensures var attributes := At(GdcRecordOf(alias, r, kit), "attributes");
            && attributes.Obj?
            && Get(attributes.fields, "aggregation_project") == Some(r.aggProject)
            && Get(attributes.fields, "sample_identifier") == Some(Str(alias))
            && Get(attributes.fields, "flow_cell_barcode") == Some(r.barcode)
            && Get(attributes.fields, "experiment_name")
                 == Some(Str(alias + "." + Show(r.converted) + "." + Show(r.aggProject)))
            && Get(attributes.fields, "sequencing_center") == Some(Str(BroadSequencingCenter))
            && Get(attributes.fields, "platform") == Some(Str(IlluminaPlatform))
            && Get(attributes.fields, "library_selection") == Some(Str(LibrarySelection(r.family)))
            && Get(attributes.fields, "data_type") == Some(r.converted)
            && Get(attributes.fields, "library_name") == Some(r.libraryName)
            && Get(attributes.fields, "lane_number") == Some(Int(r.laneNumber))
            && Get(attributes.fields, "is_paired_end") == Some(r.paired)
            && Get(attributes.fields, "read_length") == Some(Int(r.readLength))
            && Get(attributes.fields, "target_capture_kit") == Some(Str(kit))
  {
    var keys := GdcAttributeKeys;
    var values := GdcAttributeValues(alias, r, kit);
    assert At(GdcRecordOf(alias, r, kit), "attributes") == Obj(Display(keys, values));
    GdcKeysDistinct();
    DisplayGet(keys, values, 0);
    DisplayGet(keys, values, 1);
    DisplayGet(keys, values, 2);
    DisplayGet(keys, values, 3);
    DisplayGet(keys, values, 4);
    DisplayGet(keys, values, 5);
    DisplayGet(keys, values, 6);
    DisplayGet(keys, values, 7);
    DisplayGet(keys, values, 8);
    DisplayGet(keys, values, 9);
    DisplayGet(keys, values, 10);
    DisplayGet(keys, values, 11);
    DisplayGet(keys, values, 12);
  }

  /** The loop body for the libraries of one lane of one run. */
  function LibraryRecord(run: Value, lane: Value, alias: string): Value -> Result<Value> {
    library => GdcRecord(run, lane, library, alias)
  }

  /** The records of one lane: one per library, in order. */
  function LaneRecords(run: Value, lane: Value, alias: string): Result<seq<Value>> {
    var libraries :- Subscript(lane, "libraries");
    var items :- Iterate(libraries);
    Mapped(items, LibraryRecord(run, lane, alias))
  }

  function LaneRecordsOf(run: Value, alias: string): Value -> Result<seq<Value>> {
    lane => LaneRecords(run, lane, alias)
  }

  /** The records of one run: its lanes' records, one lane after another. */
  function RunRecords(run: Value, alias: string): Result<seq<Value>> {
    var lanes :- Subscript(run, "lanes");
    var items :- Iterate(lanes);
    Collect(items, LaneRecordsOf(run, alias))
  }

  function RunRecordsOf(alias: string): Value -> Result<seq<Value>> {
    run => RunRecords(run, alias)
  }

  /** What `extract_reads_data_from_json_gdc` returns for the document. */
  function GdcRecords(sampleMetadata: Value, alias: string): Result<seq<Value>> {
    var runs :- Subscript(sampleMetadata, "runs");
    var items :- Iterate(runs);
    Collect(items, RunRecordsOf(alias))
  }

  /** The innermost loop: the records of the libraries of one lane. */
  method LaneLoop(run: Value, lane: Value, alias: string) returns (r: Result<seq<Value>>)
    ensures r == LaneRecords(run, lane, alias)
  {
    var libraries := Subscript(lane, "libraries");
    if libraries.Err? {
      return Err(libraries.error);
    }
    var items := Iterate(libraries.value);
    if items.Err? {
      return Err(items.error);
    }
    r := AppendEach(items.value, LibraryRecord(run, lane, alias));
  }

  /** The loop over the lanes of one run. */
  method RunLoop(run: Value, alias: string) returns (r: Result<seq<Value>>)
    ensures r == RunRecords(run, alias)
  {
    var lanes := Subscript(run, "lanes");
    if lanes.Err? {
      return Err(lanes.error);
    }
    var items := Iterate(lanes.value);
    if items.Err? {
      return Err(items.error);
    }
    var laneItems := items.value;
    var g := LaneRecordsOf(run, alias);
    var out: seq<Value> := [];
    var j := 0;
    while j < |laneItems|
      invariant 0 <= j <= |laneItems|
      invariant Collect(laneItems[..j], g) == Ok(out)
    {
      CollectStep(laneItems, j, g);
      var next := LaneLoop(run, laneItems[j], alias);
      assert next == g(laneItems[j]);
      if next.Err? {
        CollectErrorPersists(laneItems, j + 1, g);
        return Err(next.error);
      }
      out := out + next.value;
      j := j + 1;
    }
    assert laneItems[..j] == laneItems;
    return Ok(out);
  }

  /** `extract_reads_data_from_json_gdc` on the decoded document: the three nested
      loops append one record per library of every lane of every run. */
  method ExtractReadsDataFromJsonGdc(sampleMetadata: Value, alias: string) returns (r: Result<seq<Value>>)
    ensures r == GdcRecords(sampleMetadata, alias)
  {
    var runs := Subscript(sampleMetadata, "runs");
    if runs.Err? {
      return Err(runs.error);
    }
    var items := Iterate(runs.value);
    if items.Err? {
      return Err(items.error);
    }
    var runItems := items.value;
    var g := RunRecordsOf(alias);
    var out: seq<Value> := [];
    var i := 0;
    while i < |runItems|
      invariant 0 <= i <= |runItems|
      invariant Collect(runItems[..i], g) == Ok(out)
    {
      CollectStep(runItems, i, g);
      var next := RunLoop(runItems[i], alias);
      assert next == g(runItems[i]);
      if next.Err? {
        CollectErrorPersists(runItems, i + 1, g);
        return Err(next.error);
      }
      out := out + next.value;
      i := i + 1;
    }
    assert runItems[..i] == runItems;
    return Ok(out);
  }

  /** A lane's records are its libraries' records, one per library and in order. */
  lemma LaneRecordsInOrder(run: Value, lane: Value, alias: string)
    requires LaneRecords(run, lane, alias).Ok?
    ensures var libraries := Iterate(At(lane, "libraries")).value;
            |LaneRecords(run, lane, alias).value| == |libraries|
            && forall k :: 0 <= k < |libraries| ==>
                 GdcRecord(run, lane, libraries[k], alias).Ok?
                 && LaneRecords(run, lane, alias).value[k] == GdcRecord(run, lane, libraries[k], alias).value
  {
    assert Subscript(lane, "libraries") == Ok(At(lane, "libraries"));
    var libraries := Iterate(At(lane, "libraries")).value;
    MappedSucceeds(libraries, LibraryRecord(run, lane, alias));
  }

  /** A run's records are its lanes' records, one lane after another. */
  lemma RunRecordsInOrder(run: Value, alias: string)
    requires RunRecords(run, alias).Ok?
    ensures var lanes := Iterate(At(run, "lanes")).value;
            var g := LaneRecordsOf(run, alias);
            (forall j :: 0 <= j < |lanes| ==> g(lanes[j]).Ok?)
            && RunRecords(run, alias).value == Concat(seq(|lanes|, j requires 0 <= j < |lanes| && g(lanes[j]).Ok? => g(lanes[j]).value))
  {
    assert Subscript(run, "lanes") == Ok(At(run, "lanes"));
    var lanes := Iterate(At(run, "lanes")).value;
    var g := LaneRecordsOf(run, alias);
    assert RunRecords(run, alias) == Collect(lanes, g);
    CollectOkEach(lanes, g);
    CollectConcatenates(lanes, g, seq(|lanes|, j requires 0 <= j < |lanes| && g(lanes[j]).Ok? => g(lanes[j]).value));
  }

  /** The document's records are its runs' records, one run after another. */
  lemma GdcRecordsInOrder(sampleMetadata: Value, alias: string)
    requires GdcRecords(sampleMetadata, alias).Ok?
    ensures var runs := Iterate(At(sampleMetadata, "runs")).value;
            var g := RunRecordsOf(alias);
            (forall i :: 0 <= i < |runs| ==> g(runs[i]).Ok?)
            && GdcRecords(sampleMetadata, alias).value == Concat(seq(|runs|, i requires 0 <= i < |runs| && g(runs[i]).Ok? => g(runs[i]).value))
  {
    assert Subscript(sampleMetadata, "runs") == Ok(At(sampleMetadata, "runs"));
    var runs := Iterate(At(sampleMetadata, "runs")).value;
    var g := RunRecordsOf(alias);
    assert GdcRecords(sampleMetadata, alias) == Collect(runs, g);
    CollectOkEach(runs, g);
    CollectConcatenates(runs, g, seq(|runs|, i requires 0 <= i < |runs| && g(runs[i]).Ok? => g(runs[i]).value));
  }

  // ---------------------------------------------------------------------------
  // Records for dbGaP

  /** The keys of the attributes of a record of `extract_reads_data_from_json_dbgap`. */
  const DbgapAttributeKeys: seq<string> :=
    ["product_order_id", "library_name", "library_type", "work_request_id", "analysis_type", "paired_run",
     "read_structure", "sample_lsid", "reference_sequence", "model", "research_project_id", "bait_set",
     "sample_barcode", "run_barcode", "lane", "run_name", "molecular_barcode_name", "molecular_barcode_sequence",
     "machine_name", "flowcell_barcode"]

  /** `v.split(".")[i]` on a JSON value. */
  function DotPart(v: Value, i: nat): Result<string> {
    if !v.Str? then Err(AttributeError("split"))
    else if i < |Split(v.s, '.')| then Ok(Split(v.s, '.')[i])
    else Err(IndexError)
  }

  /** What the loop body of `extract_reads_data_from_json_dbgap` reads from one
      read group. */
  datatype DbgapReads = DbgapReads(productOrder: Value, library: Value, libraryType: string, analysisType: string,
                                   paired: Value, structure: Value, lsid: Value, reference: Value, model: Value,
                                   project: Value, baitSet: Value, sampleBarcode: Value, runBarcode: Value,
                                   lane: Value, name: Value, flowcell: Value)

  /** The first reads: product order, library, the two parts of the analysis type
      and the paired-run flag. */
  function OrderReads(readGroup: Value): Result<(Value, Value, string, string, Value)> {
    var productOrder :- Subscript(readGroup, "productOrderKey");
    var library :- Subscript(readGroup, "library");
    var analysis :- Subscript(readGroup, "analysisType");
    var libraryType :- DotPart(analysis, 0);
    var analysisType :- DotPart(analysis, 1);
    var paired :- Subscript(readGroup, "pairedRun");
    Ok((productOrder, library, libraryType, analysisType, paired))
  }

  /** The reads from the read structure to the research project. */
  function SequencingReads(readGroup: Value): Result<(Value, Value, Value, Value, Value)> {
    var structure :- Subscript(readGroup, "setupReadStructure");
    var lsid :- Subscript(readGroup, "lsid");
    var reference :- Subscript(readGroup, "referenceSequence");
    var model :- Subscript(readGroup, "sequencerModel");
    var project :- Subscript(readGroup, "researchProjectId");
    Ok((structure, lsid, reference, model, project))
  }

  /** The reads after the two optional keys, from the run barcode to the flow cell;
      the model is read again for the machine name, which cannot fail then. */
  function RunReads(readGroup: Value): Result<(Value, Value, Value, Value)> {
    var runBarcode :- Subscript(readGroup, "barcode");
    var lane :- Subscript(readGroup, "lane");
    var name :- Subscript(readGroup, "name");
    var flowcell :- Subscript(readGroup, "flowcellBarcode");
    Ok((runBarcode, lane, name, flowcell))
  }

  /** All reads of one read group, in the order the code makes them; the bait set
      and the sample barcode are read with `get`, which defaults to "". */
  function ReadDbgap(readGroup: Value): Result<DbgapReads> {
    var o :- OrderReads(readGroup);
    var q :- SequencingReads(readGroup);
    var baitSet := GetOr(readGroup.fields, "baitSetName", Str(""));
    var sampleBarcode := GetOr(readGroup.fields, "sampleBarcode", Str(""));
    var n :- RunReads(readGroup);
    Ok(DbgapReads(o.0, o.1, o.2, o.3, o.4, q.0, q.1, q.2, q.3, q.4, baitSet, sampleBarcode, n.0, n.1, n.2, n.3))
  }

  /** The values of a record's attributes, in the order of `DbgapAttributeKeys`. */
  function DbgapAttributeValues(r: DbgapReads, barcode: (Value, string)): (vs: seq<Value>)
    ensures |vs| == |DbgapAttributeKeys|
  {
    [r.productOrder, r.library, Str(r.libraryType), r.productOrder, Str(r.analysisType),
     Int(if r.paired == Str("false") then 0 else 1), r.structure, r.lsid, r.reference, r.model, r.project, r.baitSet,
     r.sampleBarcode, r.runBarcode, r.lane, r.name, barcode.0, Str(barcode.1), r.model, r.flowcell]
  }

  /** The record the values make, each under its key. */
  function DbgapRecordFrom(values: seq<Value>): Value
    requires |values| == |DbgapAttributeKeys|
  {
    Obj([("attributes", Obj(Display(DbgapAttributeKeys, values)))])
  }

  /** The loop body of `extract_reads_data_from_json_dbgap` for one read group:
      the molecular barcode first, then the attributes. */
  function DbgapRecord(loads: string -> Result<Value>, readGroup: Value): Result<Value> {
    var scheme :- Subscript(readGroup, "molecularIndexingScheme");
    var barcode :- MolecularBarcode(loads, scheme);
    var r :- ReadDbgap(readGroup);
    Ok(DbgapRecordFrom(DbgapAttributeValues(r, barcode)))
  }

  function DbgapRecordOf(loads: string -> Result<Value>): Value -> Result<Value> {
    readGroup => DbgapRecord(loads, readGroup)
  }

  /** What `extract_reads_data_from_json_dbgap` returns for the document. */
  function DbgapRecords(loads: string -> Result<Value>, sampleMetadata: Value): Result<seq<Value>> {
    var readGroups :- Subscript(sampleMetadata, "readGroups");
    var items :- Iterate(readGroups);
    Mapped(items, DbgapRecordOf(loads))
  }

  /** `extract_reads_data_from_json_dbgap` on the decoded document. */
  method ExtractReadsDataFromJsonDbgap(loads: string -> Result<Value>, sampleMetadata: Value) returns (r: Result<seq<Value>>)
    ensures r == DbgapRecords(loads, sampleMetadata)
  {
    var readGroups := Subscript(sampleMetadata, "readGroups");
    if readGroups.Err? {
      return Err(readGroups.error);
    }
    var items := Iterate(readGroups.value);
    if items.Err? {
      return Err(items.error);
    }
    r := AppendEach(items.value, DbgapRecordOf(loads));
  }

  lemma DbgapKeysDistinct()
    ensures Distinct(DbgapAttributeKeys)
  {
    DbgapKeysDiffer(0, 10);
    DbgapKeysDiffer(10, 20);
  }

  lemma DbgapKeysDiffer(lo: nat, hi: nat)
    requires lo <= hi <= |DbgapAttributeKeys|
    ensures forall i, j :: lo <= i < hi && i < j < |DbgapAttributeKeys| ==> DbgapAttributeKeys[i] != DbgapAttributeKeys[j]
  {
  }

  /** The first reads: the library type and the analysis type are the first two
      "."-parts of the analysis type, so an analysis type without "." fails. */
  lemma OrderReadsMeans(readGroup: Value)
    requires OrderReads(readGroup).Ok?
    ensures var o := OrderReads(readGroup).value;
            var analysis := At(readGroup, "analysisType");
            && readGroup.Obj? && analysis.Str? && '.' in analysis.s
            && o.0 == At(readGroup, "productOrderKey") && o.4 == At(readGroup, "pairedRun")
            && o.2 == Split(analysis.s, '.')[0] && o.3 == Split(analysis.s, '.')[1]
  {
    var analysis := At(readGroup, "analysisType");
    assert Subscript(readGroup, "productOrderKey") == Ok(At(readGroup, "productOrderKey"));
    assert Subscript(readGroup, "analysisType") == Ok(analysis);
    assert Subscript(readGroup, "pairedRun") == Ok(At(readGroup, "pairedRun"));
    SplitParts(analysis.s, '.');
  }

  /** The reads of a read group: product order, paired-run flag, model and the two
      parts of the analysis type come from their keys, and the bait set and the
      sample barcode are "" when their keys are missing. */
  lemma ReadDbgapMeans(readGroup: Value)
    requires ReadDbgap(readGroup).Ok?
    ensures var r := ReadDbgap(readGroup).value;
            var analysis := At(readGroup, "analysisType");
            && readGroup.Obj? && analysis.Str? && '.' in analysis.s
            && r.productOrder == At(readGroup, "productOrderKey") && r.paired == At(readGroup, "pairedRun")
            && r.libraryType == Split(analysis.s, '.')[0] && r.analysisType == Split(analysis.s, '.')[1]
            && r.model == At(readGroup, "sequencerModel")
            && r.baitSet == (if HasKey(readGroup.fields, "baitSetName") then At(readGroup, "baitSetName") else Str(""))
            && r.sampleBarcode == (if HasKey(readGroup.fields, "sampleBarcode") then At(readGroup, "sampleBarcode") else Str(""))
  {
    OrderReadsMeans(readGroup);
    assert Subscript(readGroup, "sequencerModel") == Ok(At(readGroup, "sequencerModel"));
  }

  /** The record's values: the work request id repeats the product order and the
      machine name the model, the paired-run flag is 0 exactly for "false" and 1
      otherwise, and the molecular barcode is the one given. */
  lemma DbgapAttributeValuesMeans(r: DbgapReads, barcode: (Value, string))
    ensures var vs := DbgapAttributeValues(r, barcode);
            && vs[0] == r.productOrder && vs[3] == vs[0] && vs[9] == r.model && vs[18] == vs[9]
            && vs[2] == Str(r.libraryType) && vs[4] == Str(r.analysisType)
            && (vs[5] == Int(0) <==> r.paired == Str("false")) && (vs[5] == Int(0) || vs[5] == Int(1))
            && vs[11] == r.baitSet && vs[12] == r.sampleBarcode
            && vs[16] == barcode.0 && vs[17] == Str(barcode.1)
  {
  }

  /** The record carries every value under its key. */
  lemma DbgapRecordFromFields(values: seq<Value>, i: nat)
    requires |values| == |DbgapAttributeKeys| && i < |values|
    ensures var attributes := At(DbgapRecordFrom(values), "attributes");
            attributes.Obj? && Get(attributes.fields, DbgapAttributeKeys[i]) == Some(values[i])
  {
    DbgapKeysDistinct();
    DisplayGet(DbgapAttributeKeys, values, i);
  }
}
