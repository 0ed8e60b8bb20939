/**
 * check_file_validation_status: whether the files EGA holds for one sample have
 * been validated.  The files of the submission are filtered down to those whose
 * name, without directory and extension, is the sample alias; each is valid when
 * both its checksums are set and its size is positive; the status written out is
 * "validated" or "incomplete".
 */
module CheckFileValidationStatus {
  import opened Outcome
  import opened Python
  import opened Comprehension

  // ---------------------------------------------------------------------------
  // The files of the sample

  /** `Path(...)` of a path that is not text. */
  const PathTypeError := TypeError("expected str, bytes or os.PathLike object")

  function NoFileMessage(alias: string): string {
    "Expected to find at least 1 file associated with sample " + alias + ", instead found none"
  }

  /** One file read by the loop of `_get_file_info_for_sample`: kept when the stem
      of its name is the alias. */
  function FileOfSample(file: Value, alias: string): Result<seq<Value>> {
    var path :- Subscript(file, "relative_path");
    if !path.Str? then Err(PathTypeError)
    else Ok(if FileStem(path.s) == alias then [file] else [])
  }

  function FileOfSampleFor(alias: string): Value -> Result<seq<Value>> {
    file => FileOfSample(file, alias)
  }

  /** `_get_file_info_for_sample`: the files of the sample, or an exception when there
      are none. */
  function FilesForSample(files: seq<Value>, alias: string): Result<seq<Value>> {
    var found :- Collect(files, FileOfSampleFor(alias));
    if found == [] then Err(Raised(NoFileMessage(alias))) else Ok(found)
  }

  /** The files whose name has the alias as stem, in the order given. */
  function NamedFiles(files: seq<Value>, alias: string): seq<Value> {
    if files == [] then []
    else (if StemOf(files[0]) == alias then [files[0]] else []) + NamedFiles(files[1..], alias)
  }

  /** A file as the files query answers it: a record with a text path. */
  predicate PathListed(file: Value) {
    At(file, "relative_path").Str?
  }

  /** The named files are exactly the files with the alias as stem. */
  lemma {:induction false} NamedFilesMeans(files: seq<Value>, alias: string, v: Value)
    ensures v in NamedFiles(files, alias) <==> v in files && StemOf(v) == alias
  {
    if files != [] {
      NamedFilesMeans(files[1..], alias, v);
      assert files == [files[0]] + files[1..];
    }
  }

  /** The loop over files with text paths keeps the named files, in order. */
  lemma {:induction false} FilesOfSampleNamed(files: seq<Value>, alias: string)
    requires forall i :: 0 <= i < |files| ==> PathListed(files[i])
    ensures Collect(files, FileOfSampleFor(alias)) == Ok(NamedFiles(files, alias))
  {
    var f := FileOfSampleFor(alias);
    if files != [] {
      var x, rest := files[0], files[1..];
      PresentAt(x, "relative_path");
      assert f(x) == Ok(if StemOf(x) == alias then [x] else []);
      FilesOfSampleNamed(rest, alias);
      CollectSingle(x, f);
      CollectConcat([x], rest, f);
      assert [x] + rest == files;
    }
  }

  /** For files with text paths: the files of the sample are the named files, and
      an exception with the alias in its message when there are none. */
  lemma FilesForSampleMeans(files: seq<Value>, alias: string)
    requires forall i :: 0 <= i < |files| ==> PathListed(files[i])
    ensures NamedFiles(files, alias) == [] ==> FilesForSample(files, alias) == Err(Raised(NoFileMessage(alias)))
    ensures NamedFiles(files, alias) != [] ==> FilesForSample(files, alias) == Ok(NamedFiles(files, alias))
  {
    FilesOfSampleNamed(files, alias);
  }

  /** The files of a sample are found only when every file has a text path. */
  lemma FilesForSampleOnlyListed(files: seq<Value>, alias: string)
    requires FilesForSample(files, alias).Ok?
    ensures forall i :: 0 <= i < |files| ==> PathListed(files[i])
  {
    var f := FileOfSampleFor(alias);
    CollectOkEach(files, f);
    forall i | 0 <= i < |files| ensures PathListed(files[i]) {
      assert f(files[i]).Ok?;
      SubscriptOk(files[i], "relative_path");
    }
  }

  // ---------------------------------------------------------------------------
  // Validation

  /** `file["filesize"] > 0`: an int or a bool compares, anything else raises. */
  function PositiveSize(size: Value): Result<bool> {
    match size
    case Int(i) => Ok(i > 0)
    case Bool(b) => Ok(b)
    case _ => Err(TypeError("'>' not supported between instances"))
  }

  /** The condition of `_determine_validation_status_for_files` on one file, read
      left to right and stopping at the first falsy checksum. */
  function FileValid(file: Value): Result<bool> {
    var encrypted :- Subscript(file, "encrypted_checksum");
    if !Truthy(encrypted) then Ok(false)
    else
      var unencrypted :- Subscript(file, "unencrypted_checksum");
      if !Truthy(unencrypted) then Ok(false)
      else
        var size :- Subscript(file, "filesize");
        PositiveSize(size)
  }

  /** A file received and checked by EGA: both checksums set and a positive size. */
  predicate Validated(file: Value) {
    Truthy(At(file, "encrypted_checksum")) && Truthy(At(file, "unencrypted_checksum"))
    && At(file, "filesize").Int? && At(file, "filesize").i > 0
  }

  /** A file as the files query reports its validation: checksums and an integer size. */
  predicate StatusListed(file: Value) {
    file.Obj? && HasKey(file.fields, "encrypted_checksum") && HasKey(file.fields, "unencrypted_checksum")
    && HasKey(file.fields, "filesize") && At(file, "filesize").Int?
  }

  /** On a reported file the condition holds iff the file is validated. */
  lemma FileValidMeans(file: Value)
    requires StatusListed(file)
    ensures FileValid(file) == Ok(Validated(file))
  {
    HasKeyMeans(file.fields, "encrypted_checksum");
    HasKeyMeans(file.fields, "unencrypted_checksum");
    HasKeyMeans(file.fields, "filesize");
  }

  /** `all(...)`. */
  predicate AllTruthy(values: seq<Value>) {
    forall i :: 0 <= i < |values| ==> Truthy(values[i])
  }

  /** As written, one file appends True when it is valid and nothing otherwise. */
  function StatusAsWritten(file: Value): Result<seq<Value>> {
    var valid :- FileValid(file);
    Ok(if valid then [Bool(true)] else [])
  }

  function StatusAsWrittenFor(): Value -> Result<seq<Value>> {
    file => StatusAsWritten(file)
  }

  /** `_determine_validation_status_for_files` as written. */
  function ValidationStatusAsWritten(files: seq<Value>): Result<bool> {
    var statuses :- Collect(files, StatusAsWrittenFor());
    Ok(AllTruthy(statuses))
  }

  /** One file appends whether it is valid. */
  function Status(file: Value): Result<seq<Value>> {
    var valid :- FileValid(file);
    Ok([Bool(valid)])
  }

  function StatusFor(): Value -> Result<seq<Value>> {
    file => Status(file)
  }

  /** `_determine_validation_status_for_files` recording every file's validity. */
  function ValidationStatus(files: seq<Value>): Result<bool> {
    var statuses :- Collect(files, StatusFor());
    Ok(AllTruthy(statuses))
  }

  /** As written, the status is True whenever no file raises: only True is ever
      appended, so `all` holds of whatever was collected. */
  lemma ValidationStatusAsWrittenAlwaysTrue(files: seq<Value>)
    ensures ValidationStatusAsWritten(files).Ok? ==> ValidationStatusAsWritten(files).value
  {
    var f := StatusAsWrittenFor();
    var statuses := Collect(files, f);
    if statuses.Ok? {
      forall k | 0 <= k < |statuses.value| ensures Truthy(statuses.value[k]) {
        CollectFrom(files, f, statuses.value[k]);
      }
    }
  }

  /** The two readings raise on the same files, and the reading as written answers
      True wherever the other answers. */
  lemma ValidationStatusAsWrittenMeans(files: seq<Value>)
    ensures ValidationStatusAsWritten(files) ==
              if ValidationStatus(files).Ok? then Ok(true) else ValidationStatus(files)
  {
    CollectSameErrors(files, StatusAsWrittenFor(), StatusFor());
    ValidationStatusAsWrittenAlwaysTrue(files);
  }

  /** On reported files the status is True iff every file is validated. */
  lemma ValidationStatusMeans(files: seq<Value>)
    requires forall i :: 0 <= i < |files| ==> StatusListed(files[i])
    ensures ValidationStatus(files) == Ok(forall i :: 0 <= i < |files| ==> Validated(files[i]))
  {
    var f := StatusFor();
    forall i | 0 <= i < |files| ensures f(files[i]) == Ok([Bool(Validated(files[i]))]) {
      FileValidMeans(files[i]);
    }
    CollectOk(files, f);
    var statuses := Collect(files, f).value;
    if forall i :: 0 <= i < |files| ==> Validated(files[i]) {
      forall k | 0 <= k < |statuses| ensures Truthy(statuses[k]) {
        CollectFrom(files, f, statuses[k]);
      }
    } else {
      var i :| 0 <= i < |files| && !Validated(files[i]);
      CollectKeeps(files, f, i, Bool(false));
      var k :| 0 <= k < |statuses| && statuses[k] == Bool(false);
    }
  }

  /** A file whose encrypted checksum is missing. */
  const UnvalidatedFile := Obj([
    ("relative_path", Str("inbox/S1.bam.c4gh")), ("encrypted_checksum", Str("")),
    ("unencrypted_checksum", Str("9a0364b9e99bb480dd25e1f0284c8555")), ("filesize", Int(0))])

  /** As written, a sample whose only file is not validated is reported valid. */
  lemma UnvalidatedFileReportedValid()
    ensures ValidationStatusAsWritten([UnvalidatedFile]) == Ok(true)
    ensures ValidationStatus([UnvalidatedFile]) == Ok(false)
  {
    assert StatusListed(UnvalidatedFile);
    assert !Validated(UnvalidatedFile);
    ValidationStatusMeans([UnvalidatedFile]);
    ValidationStatusAsWrittenMeans([UnvalidatedFile]);
  }

  // ---------------------------------------------------------------------------
  // The status of a sample

  /** `get_file_validation_status` on the files of the submission, with the
      per-file statuses given: None when there is no file at all. */
  function StatusOfSample(fileMetadata: seq<Value>, alias: string, status: seq<Value> -> Result<bool>)
    : Result<Option<bool>>
  {
    if fileMetadata == [] then Ok(None)
    else
      var files :- FilesForSample(fileMetadata, alias);
      if files == [] then Ok(None)
      else
        var valid :- status(files);
        Ok(Some(valid))
  }

  /** `get_file_validation_status` as written. */
  function FileValidationStatusAsWritten(fileMetadata: seq<Value>, alias: string): Result<Option<bool>> {
    StatusOfSample(fileMetadata, alias, ValidationStatusAsWritten)
  }

  /** `get_file_validation_status`, recording every file's validity. */
  function FileValidationStatus(fileMetadata: seq<Value>, alias: string): Result<Option<bool>> {
    StatusOfSample(fileMetadata, alias, ValidationStatus)
  }

  /** As written, a sample with files is always reported valid. */
  lemma FileValidationStatusAsWrittenValid(fileMetadata: seq<Value>, alias: string)
    ensures FileValidationStatusAsWritten(fileMetadata, alias).Ok? ==>
              FileValidationStatusAsWritten(fileMetadata, alias).value != Some(false)
  {
    var files := FilesForSample(fileMetadata, alias);
    if fileMetadata != [] && files.Ok? {
      ValidationStatusAsWrittenAlwaysTrue(files.value);
    }
  }

  /** As written, on reported files: no status without files, the exception without
      a file of the sample, and otherwise True whatever the files hold. */
  lemma FileValidationStatusAsWrittenMeans(fileMetadata: seq<Value>, alias: string)
    requires forall i :: 0 <= i < |fileMetadata| ==> PathListed(fileMetadata[i]) && StatusListed(fileMetadata[i])
    ensures fileMetadata == [] ==> FileValidationStatusAsWritten(fileMetadata, alias) == Ok(None)
    ensures fileMetadata != [] && NamedFiles(fileMetadata, alias) == [] ==>
              FileValidationStatusAsWritten(fileMetadata, alias) == Err(Raised(NoFileMessage(alias)))
    ensures NamedFiles(fileMetadata, alias) != [] ==>
              FileValidationStatusAsWritten(fileMetadata, alias) == Ok(Some(true))
  {
    FilesForSampleMeans(fileMetadata, alias);
    var named := NamedFiles(fileMetadata, alias);
    if named != [] {
      forall i | 0 <= i < |named| ensures StatusListed(named[i]) {
        NamedFilesMeans(fileMetadata, alias, named[i]);
      }
      ValidationStatusMeans(named);
      ValidationStatusAsWrittenMeans(named);
    }
  }

  /** The corrected status, on reported files: no status without files, the
      exception without a file of the sample, and otherwise whether all of the
      sample's files are validated. */
  lemma FileValidationStatusMeans(fileMetadata: seq<Value>, alias: string)
    requires forall i :: 0 <= i < |fileMetadata| ==> PathListed(fileMetadata[i]) && StatusListed(fileMetadata[i])
    ensures fileMetadata == [] ==> FileValidationStatus(fileMetadata, alias) == Ok(None)
    ensures fileMetadata != [] && NamedFiles(fileMetadata, alias) == [] ==>
              FileValidationStatus(fileMetadata, alias) == Err(Raised(NoFileMessage(alias)))
    ensures NamedFiles(fileMetadata, alias) != [] ==>
              FileValidationStatus(fileMetadata, alias)
              == Ok(Some(forall v :: v in fileMetadata && StemOf(v) == alias ==> Validated(v)))
  {
    FilesForSampleMeans(fileMetadata, alias);
    var named := NamedFiles(fileMetadata, alias);
    if named != [] {
      forall i | 0 <= i < |named| ensures StatusListed(named[i]) {
        NamedFilesMeans(fileMetadata, alias, named[i]);
      }
      ValidationStatusMeans(named);
      forall v ensures v in named <==> v in fileMetadata && StemOf(v) == alias {
        NamedFilesMeans(fileMetadata, alias, v);
      }
      assert (forall i :: 0 <= i < |named| ==> Validated(named[i]))
             == (forall v :: v in fileMetadata && StemOf(v) == alias ==> Validated(v));
    }
  }

  // ---------------------------------------------------------------------------
  // The output

  /** `WriteOutputTsvFiles.file_content`: "validated" for a truthy status. */
  function FileContent(status: Option<bool>): (r: string)
    ensures r == "validated" <==> status == Some(true)
    ensures r == "validated" || r == "incomplete"
  {
    if status.Some? && status.value then "validated" else "incomplete"
  }

  // ---------------------------------------------------------------------------
  // The script

  /** GetValidationStatus: the validation status of one sample's files. */
  class GetValidationStatus {
    const token: string
    const sampleAlias: string
    const submission: string

    constructor (token: string, sampleAlias: string, submission: string)
      ensures this.token == token && this.sampleAlias == sampleAlias && this.submission == submission
    {
      this.token := token;
      this.sampleAlias := sampleAlias;
      this.submission := submission;
    }

    /** `_get_file_info_for_sample`. */
    method GetFileInfoForSample(fileMetadata: seq<Value>) returns (r: Result<seq<Value>>)
      ensures r == FilesForSample(fileMetadata, sampleAlias)
    {
      var f := FileOfSampleFor(sampleAlias);
      var found: seq<Value> := [];
      var i := 0;
      while i < |fileMetadata|
        invariant 0 <= i <= |fileMetadata|
        invariant Collect(fileMetadata[..i], f) == Ok(found)
      {
        CollectStep(fileMetadata, i, f);
        var path := Subscript(fileMetadata[i], "relative_path");
        if path.Err? {
          CollectErrorPersists(fileMetadata, i + 1, f);
          return Err(path.error);
        }
        if !path.value.Str? {
          CollectErrorPersists(fileMetadata, i + 1, f);
          return Err(PathTypeError);
        }
        if FileStem(path.value.s) == sampleAlias {
          found := found + [fileMetadata[i]];
        } else {
          assert found + [] == found;
        }
        i := i + 1;
      }
      assert fileMetadata[..i] == fileMetadata;
      if found == [] {
        return Err(Raised(NoFileMessage(sampleAlias)));
      }
      r := Ok(found);
    }

    /** `_determine_validation_status_for_files` as written: a valid file appends
        True, any other file appends nothing. */
    method DetermineValidationStatusForFiles(files: seq<Value>) returns (r: Result<bool>)
      ensures r == ValidationStatusAsWritten(files)
      ensures r.Ok? ==> r.value
    {
      var f := StatusAsWrittenFor();
      var statuses: seq<Value> := [];
      var i := 0;
      while i < |files|
        invariant 0 <= i <= |files|
        invariant Collect(files[..i], f) == Ok(statuses)
      {
        CollectStep(files, i, f);
        var valid := FileValid(files[i]);
        if valid.Err? {
          CollectErrorPersists(files, i + 1, f);
          return Err(valid.error);
        }
        if valid.value {
          statuses := statuses + [Bool(true)];
        } else {
          assert statuses + [] == statuses;
        }
        i := i + 1;
      }
      assert files[..i] == files;
      r := Ok(AllTruthy(statuses));
      ValidationStatusAsWrittenAlwaysTrue(files);
    }

    /** `get_file_validation_status` as written, on the files of the submission. */
    method GetFileValidationStatus(fileMetadata: seq<Value>) returns (r: Result<Option<bool>>)
      ensures r == FileValidationStatusAsWritten(fileMetadata, sampleAlias)
      ensures r.Ok? ==> r.value != Some(false)
    {
      if fileMetadata == [] {
        return Ok(None);
      }
      var files := GetFileInfoForSample(fileMetadata);
      if files.Err? {
        return Err(files.error);
      }
      if files.value == [] {
        return Ok(None);
      }
      var valid := DetermineValidationStatusForFiles(files.value);
      if valid.Err? {
        return Err(valid.error);
      }
      r := Ok(Some(valid.value));
      FileValidationStatusAsWrittenValid(fileMetadata, sampleAlias);
    }
  }

  /** WriteOutputTsvFiles: the status text written for the sample. */
  class WriteOutputTsvFiles {
    const sampleAlias: string
    const sampleId: string
    const validationStatus: Option<bool>
    const fileContent: string

    constructor (sampleAlias: string, sampleId: string, validationStatus: Option<bool>)
      ensures this.sampleAlias == sampleAlias && this.sampleId == sampleId
      ensures this.validationStatus == validationStatus
      ensures fileContent == FileContent(validationStatus)
    {
      this.sampleAlias := sampleAlias;
      this.sampleId := sampleId;
      this.validationStatus := validationStatus;
      this.fileContent := FileContent(validationStatus);
    }
  }
}
