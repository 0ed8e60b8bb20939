# Sequencing-metadata submissions, modelled in Dafny

This project models the deterministic core of a set of scripts. The scripts
prepare the metadata of a sample's aligned reads for three archives: dbGaP/SRA,
the Genomic Data Commons (GDC) and the European Genome-phenome Archive (EGA).
Every statement about the model is proved by the Dafny verifier.

The model has one module per source file:

| module | source file | what it models |
|---|---|---|
| `DbgapClasses` | src/scripts/dbgap/dbgap_classes.py | reading the sample fields; collapsing many read-group records into one read group (constants from the first record, sets built from templates); the library descriptor; the regex read length; the Experiment and Run submitter ids; the Experiment, Run and Submission dict trees |
| `DbgapClassesLegacy` | src/scripts/dbgap_classes.py | the older classes: the telemetry sample check, the table without a default, the descriptor built branch by branch, the split-based read length, `file_type`, the submitter ids; lemmas state where they differ from the newer file |
| `DbgapTelemetryReport` | src/services/dbgap_telemetry_report.py | first-match sample lookup in the parsed report, the sample status for a data type, the sample information |
| `DgbapTelemetryReport` | src/services/dgbap_telemetry_report.py | the sample and admin-bio-project filters and the order of the raised errors |
| `ExtractReadsMetadataFromJson` | src/scripts/extract_reads_metadata_from_json.py | the bucket-name check, the digit-summing read length, the capture-kit and library-selection rules, the molecular barcode, and the GDC (run, lane, library) and dbGaP (read group) record builders |
| `GdcExtractReadsData` | src/scripts/gdc/extract_reads_data.py | `format_read_group`, and `submit_reads` both as written (its one-argument call of `submit_metadata` raises TypeError) and as intended (the close check) |
| `GdcSubmitMetadata` | src/scripts/gdc/submit_metadata.py | the submitter id, `get_read_groups` and `create_metadata` |
| `LinkGdcEntities` | src/scripts/link_gdc_entities.py | the case, sample, aliquot and read-group entities and how they refer to each other |
| `CreateSampleTsv` | src/scripts/create_sample_tsv.py | `pushReadGroupsToTSV`, which updates each read group in place, and the reshaping of the sample dict in `createTSV` |
| `ExtractReadsData` | src/scripts/extract_reads_data.py | `formatReads` |
| `Duplicate` | duplicate.py | `check_duplicates_in_column` over the lines of a TSV file |
| `RegisterExperimentAndRunMetadata` | src/scripts/ega/register_experiment_and_run_metadata.py | the class `RegisterEgaExperimentsAndRuns`: experiment and run existence checks, sample resolution, file linking and the registration flow |
| `UploadEgaMetadata` | src/scripts/upload_ega_metadata.py | the class `RegisterEgaMetadata`: defaults, existence checks, sample and run filtering, file linking, the policy, the dataset and the order of the whole upload |
| `RegisterDatasetAndFinalizeSubmission` | src/scripts/ega/register_dataset_and_finalize_submission.py | the policy selection rule, the dataset type and the dataset payload |
| `CheckFileValidationStatus` | src/scripts/ega/check_file_validation_status.py | the files of a sample, their validation status and the output text |

Five modules are shared:

- `Outcome` holds the exceptions a script can raise and `Result`/`Option`.
- `Python` holds JSON values and the Python built-ins the scripts use: dict lookup and update, `str()`, `int()`, `split`, `join`, `strip`, path name and stem.
- `Comprehension` and `Each` hold the list-building loops and the loops that update a list in place.
- `ElementTree` models `iter` over a parsed XML tree.
- `EgaArchive` is the remote EGA submission. It is a class holding lists of experiments, samples, runs, files, policies and datasets. Its create methods append records and issue provisional ids.

Modelling choices:

- **Calls to other systems are inputs.**
  - Every answer from the network is a parameter: HTTP, the telemetry service, the Terra API and the storage bucket.
  - JSON decoding is a parameter too (`loads`).
  - The EGA archive's create calls are the methods of `EgaArchive.Archive`.
  - The date, the comment and the year of a dbGaP submission are parameters.
- **JSON dicts keep their insertion order.** They are modelled as lists of key/value pairs. Setting an existing key keeps its position, as in Python.
- **Python set iteration order is a parameter.** `", ".join` and `".".join` over a set take an `order` function. Properties are stated for every order that lists each element once.
- **Entities are datatypes where the source never mutates them.** Examples are `Sample`, `ReadGroup`, `Experiment` and `Run`. Their constructors, which can raise, become `Result`-returning functions.
- **Classes are classes where the source mutates them.** The EGA registration classes, the archive and the Python dicts updated in place are Dafny classes with `modifies` clauses.
- **The code wins over its description.** Where the code and its docstrings or comments disagree, the model follows the code. For example, check_file_validation_status.py promises a validation status but, as written, always reports True; see Findings.
- **Corrected definitions carry the flows past a crash.** Where the code as written raises on a path it evidently means to take (an undefined name, a missing key, an answer read in the wrong shape), the model holds both the code as written and a corrected definition, listed in Findings. The flows and lemmas built on a corrected definition, and their rows below, name the correction they assume; "## Left out" lists them.

## Model

| member | source | states |
|---|---|---|
| Duplicate.Field | duplicate.py:11-12 | a line with at most column_index fields gives no value; an index in range gives that field, a negative one counts from the end as Python does, and one below minus the field count raises IndexError |
| Duplicate.RowsAt | duplicate.py:9 | row k holds the tab-separated fields of stripped line k |
| Duplicate.RaisesMeans | duplicate.py:8-12 | the stretch of lines raises iff one of its lines makes the field access raise |
| Duplicate.RaisesPersists | duplicate.py:8-12 | once a line raises, every longer stretch of lines raises too |
| Duplicate.ScanCounts | duplicate.py:3-16 | a value is in seen_values iff it occurs in the column, and in duplicate_values iff it occurs there at least twice |
| Duplicate.ScanRow | duplicate.py:11-16 | one more line adds its value to the seen values, and to the duplicates exactly when it was seen before; a short line changes neither |
| Duplicate.CheckDuplicatesInColumn | duplicate.py:2-18 | an empty file raises StopIteration; the header line is never examined; the scan raises IndexError iff some data line does; otherwise a value is reported iff it occurs at least twice in the column of the data lines, and only seen values are reported |
| ExtractReadsData.FormatReads | src/scripts/extract_reads_data.py:21-35 | the loop builds exactly the formatted reads of the reference definition, raising where it raises |
| ExtractReadsData.ResultAttributesErrPersists | src/scripts/extract_reads_data.py:27-29 | a result without an "attributes" key stops the loop: the results after it are not read |
| ExtractReadsData.ResultAttributesBounded | src/scripts/extract_reads_data.py:24-35 | the output is never longer than the results, and every entry of it is truthy |
| ExtractReadsData.ResultAttributesAllKept | src/scripts/extract_reads_data.py:26-29 | when every result has truthy attributes, the output is those attributes, one per result, in input order |
| ExtractReadsData.EmptyAttributesSkipped | src/scripts/extract_reads_data.py:28-31 | a result whose attributes are falsy adds nothing |
| ExtractReadsData.FalsyResultsGiveNothing | src/scripts/extract_reads_data.py:26-33 | falsy results give the empty list |
| CreateSampleTsv.SubmitterIdConstant | src/scripts/create_sample_tsv.py:34 | the constant is built iff the sample metadata has both aggregation_project and sample_alias; aggregation_project is read first |
| CreateSampleTsv.ReadGroupIdFields | src/scripts/create_sample_tsv.py:34-37 | the read-group id is the dot-join of flow cell barcode, lane number, aggregation project and sample alias, and splits back into those four parts when none contains a dot |
| CreateSampleTsv.PushedKeys | src/scripts/create_sample_tsv.py:37-38 | one read group gains read_group_id and sample_alias, and every other key keeps its value; it fails iff its id cannot be built |
| CreateSampleTsv.PushReadGroupsToTsv | src/scripts/create_sample_tsv.py:33-40 | the groups are updated in place, in the same array, as the reference definition says, and the error of the first group that fails is returned |
| CreateSampleTsv.PushingStampsEveryGroup | src/scripts/create_sample_tsv.py:36-40 | when nothing fails, every group keeps its position, gains read_group_id and the sample's sample_alias, and keeps all its other keys |
| CreateSampleTsv.PushingStopsAtFirstFailure | src/scripts/create_sample_tsv.py:36-38 | the first group whose id cannot be built raises its error, and it and the groups after it are left unchanged |
| CreateSampleTsv.ReshapedSample | src/scripts/create_sample_tsv.py:7-11 | the first sample gains project and program from the metadata and loses read_groups, which is returned; every other key is kept; each missing key raises |
| CreateSampleTsv.CreatedTsvMeans | src/scripts/create_sample_tsv.py:5-36 | each error of the reshaping, then of the submitter-id constant (formed before any read group is iterated), then of the iteration and of the pushing is the result; otherwise the reshaped sample and one stamped row per read group are kept; an empty read-group list raises when readGroups[0] is read |
| CreateSampleTsv.CreateTsv | src/scripts/create_sample_tsv.py:5-36 | the method, which stamps the read groups in place in an array, computes exactly what CreatedTsv describes, errors in the same order |
| DbgapTelemetryReport.FindSampleMeans | src/services/dbgap_telemetry_report.py:32-36 | the search returns the sample at index i when it is the first whose "@submitted_sample_id" is the alias; whatever it returns names the alias; when none does it raises SampleNotFoundError carrying the alias |
| DbgapTelemetryReport.GetSampleMeans | src/services/dbgap_telemetry_report.py:26-40 | a report without "DbGap" or without "Study" raises that KeyError again; a sample found names the alias |
| DbgapTelemetryReport.GetSampleFindsFirst | src/services/dbgap_telemetry_report.py:29-34 | a list of samples is searched in order and its first sample with the alias is returned |
| DbgapTelemetryReport.SingleSampleRaises | src/services/dbgap_telemetry_report.py:30-33 | a study with a single sample, which xmltodict gives as a dict, is iterated by its keys, and `.get` on a key raises AttributeError |
| DbgapTelemetryReport.FindStatusMeans | src/services/dbgap_telemetry_report.py:47-50 | the status of the first stat whose "@experiment_type" is the data type is returned; with no such stat the result is None |
| DbgapTelemetryReport.SampleStatusOfOneStat | src/services/dbgap_telemetry_report.py:42-52 | a single stat dict gives its "@status" whatever the data type; stats that are neither a list nor a dict give None |
| DbgapTelemetryReport.SampleStatusOfStatList | src/services/dbgap_telemetry_report.py:47-50 | a list of stats gives the status of its first stat of the data type |
| DbgapTelemetryReport.GetSampleInfoMeans | src/services/dbgap_telemetry_report.py:54-62 | the answer holds exactly repository and submitted_subject_id, in that order, read from the sample, and it is given iff the sample has both; a missing one raises a KeyError naming the attribute and the alias, "@repository" checked first |
| DgbapTelemetryReport.MatchedSamplesDefined | src/services/dgbap_telemetry_report.py:27-32 | the sample list can be formed iff every Sample element has a submitted_sample_id; otherwise it raises KeyError |
| DgbapTelemetryReport.MatchedSamplesKept | src/services/dgbap_telemetry_report.py:32 | every dict kept names the alias, and every Sample element naming the alias has its attributes kept |
| DgbapTelemetryReport.MatchedSamplesCount | src/services/dgbap_telemetry_report.py:32-40 | nothing is kept iff no element names the alias, and more than one dict is kept iff two elements name it |
| DgbapTelemetryReport.MatchedSampleFrom | src/services/dgbap_telemetry_report.py:32 | every dict kept is the attribute dict of one of the elements |
| DgbapTelemetryReport.AdminBioProjectsMeans | src/services/dgbap_telemetry_report.py:24-33 | the ids kept are exactly the bp_id of the BioProject elements whose bp_type is "admin"; none is kept iff every element has a bp_type other than "admin" |
| DgbapTelemetryReport.SampleLevelInfoOrder | src/services/dgbap_telemetry_report.py:30-46 | no matching sample raises SampleNotRegistered before the study is checked; then no admin bio project raises StudyNotRegistered; then several samples raise the ambiguity error; otherwise the answer is the first child's attributes as the study, the first admin bp_id and the single sample |
| DgbapTelemetryReport.SampleLevelInfoNamesAlias | src/services/dgbap_telemetry_report.py:32-46 | the sample answered is the attribute dict of a Sample element of the report, and it names the alias |
| DgbapTelemetryReport.SampleLevelInfoAsWritten | src/services/dgbap_telemetry_report.py:30-31 | as written, a call that reaches the body raises NameError: `call_telemetry_report` is defined at line 15 only as a method, so the bare name at line 31 is unbound (the instance call with an alias raises TypeError first, since the method has no `self`) |
| DgbapTelemetryReport.AsWrittenRejectsRegisteredSample | src/services/dgbap_telemetry_report.py:30-46 | a report with one registered sample and an admin bio project is accepted by the corrected classification and rejected by the code as written |
| ElementTree.IterHasTag | src/services/dgbap_telemetry_report.py:32-33 | `root.iter(tag)` yields only elements with that tag, starting with the root itself when it has it |
| ElementTree.IterVisitsChildren | src/services/dgbap_telemetry_report.py:32-33 | `root.iter(tag)` visits every child with that tag |
| ElementTree.FirstChild | src/services/dgbap_telemetry_report.py:43 | `root[0]` is defined iff the root has a child |
| GdcExtractReadsData.LibraryStrategyMeans | src/scripts/gdc/extract_reads_data.py:47-59 | WXS, WGS and RNA are kept as given, Exome maps to WXS, any other data type leaves the strategy "", and a list or dict passes the membership test among the table's values (line 48, which compares without hashing) and then raises TypeError where the table lookup at line 54 hashes it, which the `except KeyError` does not catch |
| GdcExtractReadsData.PreparationLast | src/scripts/gdc/extract_reads_data.py:80-82 | a key of the read is copied iff it contains "library_preparation" and its value is neither None nor "", and it keeps the read's value |
| GdcExtractReadsData.EntityKeysNotPreparation | src/scripts/gdc/extract_reads_data.py:61-84 | no key of the base record contains "library_preparation" |
| GdcExtractReadsData.HeadOfMeans | src/scripts/gdc/extract_reads_data.py:45-59 | the submitter-id constant and the strategy are read iff the read is a dict with aggregation_project, sample_identifier and data_type, and a data type that can be hashed; aggregation_project is read first |
| GdcExtractReadsData.BodyOfMeans | src/scripts/gdc/extract_reads_data.py:61-79 | the literal's values are read iff every key it reads is there and the flow cell barcode can be sliced |
| GdcExtractReadsData.FormatReadGroupSucceeds | src/scripts/gdc/extract_reads_data.py:44-84 | the read group is formatted iff the read is a dict holding every key read, with a hashable data type and a sliceable barcode; a non-dict raises TypeError, and a missing aggregation_project raises first |
| GdcExtractReadsData.FormattedEntries | src/scripts/gdc/extract_reads_data.py:61-78 | the type is read_group; the aliquot is the sample identifier; the submitter id is the dot-join of barcode, lane, aggregation project and sample identifier; the strategy is the mapped data type; HybridSelection becomes "Hybrid Selection"; the read-group name is the first five barcode characters, ".", the lane |
| GdcExtractReadsData.FormattedKeepsRead | src/scripts/gdc/extract_reads_data.py:67-77 | experiment name, centre, platform, library name, lane, pairing, read length and capture kit are copied unchanged |
| GdcExtractReadsData.FormattedParts | src/scripts/gdc/extract_reads_data.py:84 | the record is the base literal merged with the library-preparation entries, the latter winning |
| GdcExtractReadsData.FormattedCopies | src/scripts/gdc/extract_reads_data.py:80-84 | every copied library-preparation key holds the read's value, overriding the base field; the keys are exactly the base keys and the copied ones |
| GdcExtractReadsData.FormattedReadsInOrder | src/scripts/gdc/extract_reads_data.py:88 | the comprehension succeeds iff every read's attributes can be formatted, and then gives one formatted record per read, in order |
| GdcExtractReadsData.SubmitReadsAsWrittenMeans | src/scripts/gdc/extract_reads_data.py:87-93 | as written the submission never succeeds: a formatting error is raised first, and otherwise the one-argument call of `submit_metadata(self, input_data, metadata)` (src/services/gdc_api.py:33) raises TypeError |
| GdcExtractReadsData.SubmitReadsMeans | src/scripts/gdc/extract_reads_data.py:87-98 | for the intended call whose answer is the transaction's operation (not the code as written, which SubmitReadsAsWrittenMeans states): a formatting error is raised first; an operation answered "close" raises; otherwise the reads submitted are the formatted ones |
| GdcExtractReadsData.SubmitReadsOfNoneReply | src/services/gdc_api.py:33-61 | `submit_metadata` returns nothing, so with its answer None the "close" test never holds and every formatted submission succeeds |
| GdcExtractReadsData.SubmitReadsAsWrittenRejects | src/scripts/gdc/extract_reads_data.py:87-93 | an empty list of reads formats; as written it raises TypeError, while the intended submission of a committed transaction succeeds |
| GdcSubmitMetadata.SubmitterIdParts | src/scripts/gdc/submit_metadata.py:14-25 | the submission's submitter id is the dot-join of sample alias, data type and aggregation project, and splits back into them when none contains a dot |
| GdcSubmitMetadata.StrategiesGet | src/scripts/gdc/submit_metadata.py:5-11 | the strategy table maps WGS to WGS, Exome and WXS to WXS, RNA to RNA-Seq, Custom_Selection to Targeted Sequencing, and has no other key |
| GdcSubmitMetadata.ExperimentalStrategyMeans | src/scripts/gdc/submit_metadata.py:39 | a data type in the table gets its strategy, any other gives "", and a list or dict raises TypeError because `.get` hashes it |
| GdcSubmitMetadata.GetReadGroups | src/scripts/gdc/submit_metadata.py:52-62 | the loop builds exactly the submitter-id entries of the reference definition, raising where it raises |
| GdcSubmitMetadata.ReadGroupIdsInOrder | src/scripts/gdc/submit_metadata.py:54-62 | the ids are built iff every read group is a dict with a flow cell barcode and a lane number, and then there is one entry per group, in order, each the dot-join of barcode, lane, aggregation project and sample alias |
| GdcSubmitMetadata.ReadGroupEntryMeans | src/scripts/gdc/submit_metadata.py:58-60 | one read group gives the entry holding only its submitter id, iff it has both keys read |
| GdcSubmitMetadata.MetadataKeysDistinct | src/scripts/gdc/submit_metadata.py:32-45 | the metadata literal has no repeated key |
| GdcSubmitMetadata.CreateMetadataSucceeds | src/scripts/gdc/submit_metadata.py:31-45 | the metadata is built iff the file size parses as an int, the data type can be hashed and the read groups can be read; a bad file size raises its ValueError |
| GdcSubmitMetadata.CreateMetadataFields | src/scripts/gdc/submit_metadata.py:33-44 | the file name is the submitter id plus ".bam"; the file size is int(file_size); the strategy comes from the table; the project id is "program-project"; the md5 is kept; the read groups are the built entries |
| LinkGdcEntities.FetchMeans | src/scripts/link_gdc_entities.py:66-77 | the read-group values are read iff the group is a dict holding every key read; they are read in the literal's order, so the first missing key is the KeyError raised, and a non-dict raises TypeError |
| LinkGdcEntities.EntityKeysDiffer | src/scripts/link_gdc_entities.py:61-80 | once the later "platform" replaces the earlier one, the fifteen keys of the read-group entity are distinct |
| LinkGdcEntities.EntriesFront | src/scripts/link_gdc_entities.py:61-80 | the literal lists sixteen entries, the last being "platform": "Illumina", and the first fifteen are the entity with the group's own platform in fifth place |
| LinkGdcEntities.EntityOfIsDisplay | src/scripts/link_gdc_entities.py:61-80 | the dict the literal evaluates to keeps "platform" at its first position with the later value "Illumina" |
| LinkGdcEntities.EntityOfFields | src/scripts/link_gdc_entities.py:62-79 | the entity has type read_group, the sample alias as its aliquot, the built submitter id, platform "Illumina" and adapter trimming on |
| LinkGdcEntities.EntityOfCopies | src/scripts/link_gdc_entities.py:67-77 | every other field is the read group's value under the same key |
| LinkGdcEntities.ReadGroupEntityBuilt | src/scripts/link_gdc_entities.py:60-80 | one entity is built iff the sample metadata has sample_alias and the group is a dict holding every key read; a missing sample_alias raises first |
| LinkGdcEntities.ReadGroupEntityFields | src/scripts/link_gdc_entities.py:61-80 | a built entity names the alias as its aliquot, carries the dot-joined submitter id and platform "Illumina", and copies the group's other fields |
| LinkGdcEntities.ReadGroupEntityAliquot | src/scripts/link_gdc_entities.py:63-65 | the entity's aliquot reference is the sample alias |
| LinkGdcEntities.CreateReadGroups | src/scripts/link_gdc_entities.py:54-82 | the loop builds exactly the entities of the reference definition, raising where it raises |
| LinkGdcEntities.ReadGroupEntitiesInOrder | src/scripts/link_gdc_entities.py:57-82 | one entity per read group, in input order |
| LinkGdcEntities.CreateLinkData | src/scripts/link_gdc_entities.py:44-52 | the method computes exactly the reference definition of createLinkData |
| LinkGdcEntities.LinkDataShape | src/scripts/link_gdc_entities.py:44-52 | the link data is built iff sample_alias is there and the read groups can be built; it is the case, the sample, the aliquot, then the read groups in input order |
| LinkGdcEntities.CaseReference | src/scripts/link_gdc_entities.py:108-117 | the case's submitter id is "program-project-0001" |
| LinkGdcEntities.SampleReferences | src/scripts/link_gdc_entities.py:95-106 | the sample refers to the case id, and its own id is the alias followed by "-sample" |
| LinkGdcEntities.AliquotReferences | src/scripts/link_gdc_entities.py:84-93 | the aliquot refers to the sample id "alias-sample", and its own id is the alias |
| LinkGdcEntities.LinkedHeadAgrees | src/scripts/link_gdc_entities.py:44-117 | in the link data, the sample's case reference is the case's submitter id, and the aliquot's sample reference is the sample's submitter id |
| LinkGdcEntities.ReadGroupEntitiesNameAlias | src/scripts/link_gdc_entities.py:60-66 | every read-group entity's aliquot reference is the sample alias |
| LinkGdcEntities.LinkedReadGroupsAgree | src/scripts/link_gdc_entities.py:44-93 | in the link data, every read group after the first three names the aliquot's submitter id |
| LinkGdcEntities.LinkEntityNamesCase | src/scripts/link_gdc_entities.py:6-17 | link_entity reads the first sample and the metadata's program and project, so its case is named after them and its aliquot after the first sample's alias |
| RegisterDatasetAndFinalizeSubmission.PolicyIdsKept | src/scripts/ega/register_dataset_and_finalize_submission.py:16 | every id kept belongs to a policy with the title, and every policy with the title has its id kept |
| RegisterDatasetAndFinalizeSubmission.PolicyIdsCount | src/scripts/ega/register_dataset_and_finalize_submission.py:16-21 | no id is kept iff no policy has the title, and more than one iff two policies have it |
| RegisterDatasetAndFinalizeSubmission.PolicyNoneMatches | src/scripts/ega/register_dataset_and_finalize_submission.py:17-20 | no policy with the title raises ValueError with the "found zero" message naming the title |
| RegisterDatasetAndFinalizeSubmission.PolicySeveralMatch | src/scripts/ega/register_dataset_and_finalize_submission.py:21-24 | two policies with the title raise ValueError |
| RegisterDatasetAndFinalizeSubmission.PolicyOneMatches | src/scripts/ega/register_dataset_and_finalize_submission.py:15-26 | exactly one policy with the title gives its accession id |
| RegisterDatasetAndFinalizeSubmission.DatasetType | src/scripts/ega/register_dataset_and_finalize_submission.py:40 | the type is "Whole genome sequencing" iff the strategy is "WGS", and "Exome sequencing" otherwise |
| RegisterDatasetAndFinalizeSubmission.DatasetPayloadCarries | src/scripts/ega/register_dataset_and_finalize_submission.py:45-51 | the payload carries the given run ids and policy id unchanged, the title, the description and the one dataset type |
| RegisterDatasetAndFinalizeSubmission.CreatedDatasetIdMeans | src/scripts/ega/register_dataset_and_finalize_submission.py:54 | the id is the first record's accession id, read once every record answered has one; an empty answer raises IndexError |
| EgaArchive.NewRecordGet | src/scripts/upload_ega_metadata.py:176-190 | a created record answers the provisional and accession ids the archive issued, and every other key as it was posted |
| EgaArchive.Referenced | src/scripts/upload_ega_metadata.py:267-277 | the record a run embeds carries the identifier it was posted with, and it is a stored record or one holding only that identifier |
| EgaArchive.ReferencedFirst | src/scripts/upload_ega_metadata.py:267-277 | the record embedded is the first stored one carrying the identifier |
| EgaArchive.IssuedIdsGrow | src/scripts/upload_ega_metadata.py:176-190 | issuing another identifier keeps the old records' identifiers issued and unique |
| EgaArchive.AppendNew | src/scripts/upload_ega_metadata.py:176-190 | a record created next keeps every kind's identifiers unique, and no older record carries its identifier |
| EgaArchive.AddExperimentValid | src/scripts/upload_ega_metadata.py:176-190 | creating an experiment keeps the archive valid, with a new identifier |
| EgaArchive.AddRunValid | src/scripts/upload_ega_metadata.py:295-305 | creating a run keeps the archive valid, with a new identifier |
| EgaArchive.AddDatasetValid | src/scripts/upload_ega_metadata.py:355-365 | creating a dataset keeps the archive valid, with a new identifier |
| EgaArchive.Archive.constructor | src/scripts/upload_ega_metadata.py:147-151 | the archive starts with the given contents |
| EgaArchive.Archive.CreateExperiment | src/scripts/upload_ega_metadata.py:176-189 | the experiment is appended and the answer is the list of the one record created; nothing else changes |
| EgaArchive.Archive.CreateRun | src/scripts/upload_ega_metadata.py:295-305 | the run is appended, embedding the experiment and the sample it names, and the answer lists it |
| EgaArchive.Archive.CreateDataset | src/scripts/upload_ega_metadata.py:355-365 | the dataset is appended and the answer lists it |
| EgaArchive.Archive.Finalise | src/scripts/upload_ega_metadata.py:383-390 | the submission is marked finalised and nothing else changes |
| RegisterExperimentAndRunMetadata.Technology | src/scripts/ega/register_experiment_and_run_metadata.py:80 | a given, non-empty technology is kept, otherwise "ILLUMINA"; the result is never empty |
| RegisterExperimentAndRunMetadata.DesignDescriptionShape | src/scripts/ega/register_experiment_and_run_metadata.py:123-126 | the description starts "{technology} {strategy} sequencing of ", ends " containing sample {alias}", and holds "paired-end" for a PAIRED layout and an empty word (two spaces) otherwise |
| RegisterExperimentAndRunMetadata.DesignDescriptionNamesSample | src/scripts/ega/register_experiment_and_run_metadata.py:124-126 | two configurations with the same description and the same text before the alias name the same sample |
| RegisterExperimentAndRunMetadata.NominalLength | src/scripts/ega/register_experiment_and_run_metadata.py:128 | strictly between 0 and 1000 the insert size is truncated to an int; otherwise the length is 0 |
| RegisterExperimentAndRunMetadata.ExperimentKeysDistinct | src/scripts/ega/register_experiment_and_run_metadata.py:139-151 | the posted experiment's eleven keys are distinct |
| RegisterExperimentAndRunMetadata.ExperimentPayloadCarries | src/scripts/ega/register_experiment_and_run_metadata.py:139-151 | the experiment posted carries the description and the study the existence check compares, and the nominal length |
| RegisterExperimentAndRunMetadata.ExperimentExistsMeans | src/scripts/ega/register_experiment_and_run_metadata.py:104-110 | an empty list gives None; an id is returned iff the first experiment matches both the study and the description, and it is that experiment's id; experiments after the first never matter |
| RegisterExperimentAndRunMetadata.CreatedExperimentIdOfAnswer | src/scripts/ega/register_experiment_and_run_metadata.py:155-158 | the id read from the create answer is that of the experiment just created |
| RegisterExperimentAndRunMetadata.ExperimentStepMeans | src/scripts/ega/register_experiment_and_run_metadata.py:117-165 | a found truthy id is returned and no create is issued; otherwise one experiment is created and its provisional id returned; a check that raises creates nothing |
| RegisterExperimentAndRunMetadata.ExperimentIdTruthy | src/scripts/ega/register_experiment_and_run_metadata.py:132-160 | the experiment id returned is always truthy |
| RegisterExperimentAndRunMetadata.CreatedExperimentFoundFirst | src/scripts/ega/register_experiment_and_run_metadata.py:104-110 | for the submission's first experiment, the next existence check finds it and creates nothing |
| RegisterExperimentAndRunMetadata.FirstExperimentOnly | src/scripts/ega/register_experiment_and_run_metadata.py:105-110 | when the first experiment is another one, every run creates yet another copy: the existence check never looks past the first |
| RegisterExperimentAndRunMetadata.ExperimentFoundAppended | src/scripts/ega/register_experiment_and_run_metadata.py:104-110 | corrected search (return None after the loop): an experiment of the study with the description, placed after experiments none of which has both, is found and its id returned |
| RegisterExperimentAndRunMetadata.ExperimentPastFirstMissed | src/scripts/ega/register_experiment_and_run_metadata.py:104-110 | behind a first experiment of another study, the check as written answers None while the corrected search finds the second experiment's id |
| RegisterExperimentAndRunMetadata.ExperimentStepStable | src/scripts/ega/register_experiment_and_run_metadata.py:117-165 | once the existence check finds an experiment, or the one created is the first, the step repeated returns the same id and creates nothing |
| RegisterExperimentAndRunMetadata.RegisteredSampleOk | src/scripts/ega/register_experiment_and_run_metadata.py:191-197 | a sample found is the first registered sample with the alias, answered as its alias and provisional id |
| RegisterExperimentAndRunMetadata.RegisteredSampleMissing | src/scripts/ega/register_experiment_and_run_metadata.py:198-203 | with no sample carrying the alias, the lookup raises "Expected to find 1 sample registered. Instead found none." |
| RegisterExperimentAndRunMetadata.FirstMatchingRunFound | src/scripts/ega/register_experiment_and_run_metadata.py:228-241 | a run id returned is that of the first run whose experiment id, sample id and sample alias all match |
| RegisterExperimentAndRunMetadata.FirstMatchingRunNone | src/scripts/ega/register_experiment_and_run_metadata.py:228-243 | None is returned iff every run can be read and none matches all three |
| RegisterExperimentAndRunMetadata.FirstMatchingRunAppend | src/scripts/ega/register_experiment_and_run_metadata.py:228-243 | runs that match nothing do not change which later run is found |
| RegisterExperimentAndRunMetadata.FileIdsErrorPersists | src/scripts/ega/register_experiment_and_run_metadata.py:255-263 | a file without the keys read stops the loop |
| RegisterExperimentAndRunMetadata.FileIdsConcat | src/scripts/ega/register_experiment_and_run_metadata.py:255-263 | the ids follow the inbox order: those of the first files come before those of the next |
| RegisterExperimentAndRunMetadata.FileIdOfInbox | src/scripts/ega/register_experiment_and_run_metadata.py:256-263 | an inbox file adds its provisional id iff the stem of its name, last suffix removed, is the alias |
| RegisterExperimentAndRunMetadata.FileIdsForSampleFrom | src/scripts/ega/register_experiment_and_run_metadata.py:255-263 | every id collected is that of an inbox file whose stem is the alias |
| RegisterExperimentAndRunMetadata.FileIdsForSampleKeeps | src/scripts/ega/register_experiment_and_run_metadata.py:255-263 | every inbox file whose stem is the alias has its id collected |
| RegisterExperimentAndRunMetadata.FileIdsForSampleEmpty | src/scripts/ega/register_experiment_and_run_metadata.py:255-265 | nothing is collected iff no inbox file's stem is the alias |
| RegisterExperimentAndRunMetadata.LinkedSampleMeans | src/scripts/ega/register_experiment_and_run_metadata.py:250-272 | linking succeeds iff some file's stem is the alias, and then the sample metadata gains "files", the ids in inbox order, and keeps every other key; otherwise it raises the "at least 1 file" message naming the alias |
| RegisterExperimentAndRunMetadata.InboxFiles | src/scripts/ega/utils.py:59-65 | an empty inbox raises "Expected to find at least 1 file in the inbox", and a non-empty one is returned whole |
| RegisterExperimentAndRunMetadata.CreatedRunIdOfAnswer | src/scripts/ega/register_experiment_and_run_metadata.py:304 | the run id read from the answer is that of the run just created |
| RegisterExperimentAndRunMetadata.RunStepSampleMeans | src/scripts/ega/register_experiment_and_run_metadata.py:250-271 | with no truthy run and a well-formed inbox holding the sample's file, the sample dict gains the ids of all the sample's files under "files" and keeps its other keys; with a found truthy run, a failing query, an empty inbox or no file of the sample it is unchanged |
| RegisterExperimentAndRunMetadata.RunStepMeans | src/scripts/ega/register_experiment_and_run_metadata.py:274-311 | a failing check raises with nothing created; a run found is returned and no run is created; an empty inbox raises; an inbox without the sample's file raises; nothing is created in any of these |
| RegisterExperimentAndRunMetadata.RunStepCreates | src/scripts/ega/register_experiment_and_run_metadata.py:287-306 | with no run found and a file for the sample, one run is created with all the sample's files, in inbox order, and its id is returned |
| RegisterExperimentAndRunMetadata.RunBodyReferences | src/scripts/ega/register_experiment_and_run_metadata.py:295-300 | the posted run names the experiment and the sample by provisional id |
| RegisterExperimentAndRunMetadata.ResolvedSampleReferenced | src/scripts/ega/register_experiment_and_run_metadata.py:191-299 | the sample the run refers to is the registered sample with the alias |
| RegisterExperimentAndRunMetadata.NewRunFields | src/scripts/ega/register_experiment_and_run_metadata.py:229-300 | the run created reads back, in the runs query, the experiment, the sample id, the sample alias and its own new id |
| RegisterExperimentAndRunMetadata.CreatedRunFound | src/scripts/ega/register_experiment_and_run_metadata.py:228-241 | the run just created is found by the next run check |
| RegisterExperimentAndRunMetadata.FoundRunTruthy | src/scripts/ega/register_experiment_and_run_metadata.py:280-283 | a run found always has a truthy id, so no second run is created for it |
| RegisterExperimentAndRunMetadata.NewRunPayloadOk | src/scripts/ega/register_experiment_and_run_metadata.py:287-300 | the run posted carries the sample's file ids, in inbox order, and its provisional id |
| RegisterExperimentAndRunMetadata.RunStepStable | src/scripts/ega/register_experiment_and_run_metadata.py:274-311 | the run step repeated returns the same answer and creates no run |
| RegisterExperimentAndRunMetadata.RegisteredSampleShape | src/scripts/ega/register_experiment_and_run_metadata.py:194-197 | a sample found is answered as its alias and provisional id |
| RegisterExperimentAndRunMetadata.RegistrationGuard | src/scripts/ega/register_experiment_and_run_metadata.py:328-339 | a run is attempted only with a truthy experiment id and sample metadata; a missing sample raises with no run created |
| RegisterExperimentAndRunMetadata.ExperimentStepValid | src/scripts/ega/register_experiment_and_run_metadata.py:117-165 | the experiment step keeps the archive valid and leaves the samples alone |
| RegisterExperimentAndRunMetadata.RunStepKeeps | src/scripts/ega/register_experiment_and_run_metadata.py:274-311 | the run step changes nothing but the runs and the issued count |
| RegisterExperimentAndRunMetadata.RunRegistrationStable | src/scripts/ega/register_experiment_and_run_metadata.py:331-344 | the run part repeated on its own result gives the same answer and state |
| RegisterExperimentAndRunMetadata.RegistrationIdempotent | src/scripts/ega/register_experiment_and_run_metadata.py:320-344 | as the docstring promises, a second run creates nothing and writes the same row, provided the existence check finds the experiment or the submission had none |
| RegisterExperimentAndRunMetadata.RegisterEgaExperimentsAndRuns.constructor | src/scripts/ega/register_experiment_and_run_metadata.py:51-87 | the script object holds the configuration and the archive it is given |
| RegisterExperimentAndRunMetadata.RegisterEgaExperimentsAndRuns.ConditionallyCreateExperiment | src/scripts/ega/register_experiment_and_run_metadata.py:117-165 | answer and new archive contents are those of the experiment step |
| RegisterExperimentAndRunMetadata.RegisterEgaExperimentsAndRuns.GetMetadataForRegisteredSample | src/scripts/ega/register_experiment_and_run_metadata.py:173-208 | the loop returns exactly the registered-sample lookup |
| RegisterExperimentAndRunMetadata.RegisterEgaExperimentsAndRuns.RunExistsQuery | src/scripts/ega/register_experiment_and_run_metadata.py:210-248 | the loop returns exactly the run existence check |
| RegisterExperimentAndRunMetadata.RegisterEgaExperimentsAndRuns.LinkFilesToSamples | src/scripts/ega/register_experiment_and_run_metadata.py:250-272 | the loop gives the linking's answer, and the sample metadata dict gains "files" in place only when it succeeds |
| RegisterExperimentAndRunMetadata.RegisterEgaExperimentsAndRuns.ConditionallyRegisterRun | src/scripts/ega/register_experiment_and_run_metadata.py:250-311 | answer and new archive contents are those of the run step, and the caller's sample dict becomes RunStepSample of its old contents: the linked dict when linking ran and succeeded, unchanged otherwise |
| RegisterExperimentAndRunMetadata.RegisterEgaExperimentsAndRuns.RegisterMetadata | src/scripts/ega/register_experiment_and_run_metadata.py:320-344 | the row written and the archive's new contents are those of the registration flow, whose idempotence is proved above |
| UploadEgaMetadata.Given | src/scripts/upload_ega_metadata.py:122-130 | a text that is given and not empty is kept, and the default replaces a missing or empty one |
| UploadEgaMetadata.Defaults | src/scripts/upload_ega_metadata.py:122-130 | without a title or a description the dataset gets the template naming the submission id; a given one is kept; the technology defaults to "ILLUMINA" |
| UploadEgaMetadata.ExperimentPayloadCarries | src/scripts/upload_ega_metadata.py:170-187 | the experiment posted carries the design description "{technology} sequencing of Homo sapiens via {selection}" and the study id the existence check compares, under exactly the seven keys posted |
| UploadEgaMetadata.ExperimentStepAsWrittenRaises | src/scripts/upload_ega_metadata.py:173-190 | as written, an upload that finds no experiment creates one and then raises TypeError reading "provisional_id" from the list answered |
| UploadEgaMetadata.ExperimentStepMeans | src/scripts/upload_ega_metadata.py:140-197 | an experiment found with a truthy id is returned and nothing is created; otherwise one experiment is created and its accession id returned; a failing check is raised with nothing created |
| UploadEgaMetadata.CreatedExperimentFoundFirst | src/scripts/upload_ega_metadata.py:151-157 | the experiment just created is found by the next upload when it is the submission's first experiment |
| UploadEgaMetadata.ExperimentStepAgain | src/scripts/upload_ega_metadata.py:151-174 | when the existence check only ever sees the first experiment, a second upload finds the experiment the first one returned and creates nothing |
| UploadEgaMetadata.SampleRecordGet | src/scripts/upload_ega_metadata.py:239-244 | an entry made for a registered sample reads back its alias and accession id, and has no key "alias" |
| UploadEgaMetadata.SampleEntryListed | src/scripts/upload_ega_metadata.py:237-244 | a listed sample gives an entry iff its alias is the one looked for |
| UploadEgaMetadata.RegisteredSamplesFrom | src/scripts/upload_ega_metadata.py:236-246 | every entry made is the entry of a sample whose alias is one of the aliases |
| UploadEgaMetadata.RegisteredSamplesOk | src/scripts/upload_ega_metadata.py:236-246 | with listed samples the lookup never raises |
| UploadEgaMetadata.RegisteredSamplesKeeps | src/scripts/upload_ega_metadata.py:236-246 | every sample carrying one of the aliases has its entry made |
| UploadEgaMetadata.RegisteredSamplesMeans | src/scripts/upload_ega_metadata.py:236-246 | an entry is made iff it is the entry of a listed sample whose alias is one of the aliases, one per (alias, sample) pair |
| UploadEgaMetadata.RegisteredSamplesConcat | src/scripts/upload_ega_metadata.py:236-246 | the entries follow the alias list: those of the first aliases come before those of the next |
| UploadEgaMetadata.SamplesWithAliasConcat | src/scripts/upload_ega_metadata.py:237-244 | for one alias, the entries follow the listed order of the samples |
| UploadEgaMetadata.RegisteredSamplesShape | src/scripts/upload_ega_metadata.py:239-244 | every entry made carries sample_alias and sample_accession_id and no "alias" |
| UploadEgaMetadata.RunListedReads | src/scripts/upload_ega_metadata.py:267-277 | a listed run is kept by the experiment filter iff its experiment has the id, and by the sample filter iff its sample has the accession id |
| UploadEgaMetadata.RunsInExperimentMeans | src/scripts/upload_ega_metadata.py:267-269 | the runs kept are exactly the listed runs of the experiment |
| UploadEgaMetadata.SampleWithoutRunMeans | src/scripts/upload_ega_metadata.py:272-279 | a registered sample is kept iff none of the runs given is of it |
| UploadEgaMetadata.SampleWithoutRunIn | src/scripts/upload_ega_metadata.py:267-279 | against the runs of the experiment, a sample is kept iff no run of that experiment is of it |
| UploadEgaMetadata.SamplesWithoutRunsMeans | src/scripts/upload_ega_metadata.py:252-280 | a registered sample is kept iff no run of the current experiment carries its sample accession id |
| UploadEgaMetadata.SamplesWithoutRunsFrom | src/scripts/upload_ega_metadata.py:271-280 | the samples kept are some of the registered samples |
| UploadEgaMetadata.FilesOfSubmissionMeans | src/scripts/upload_ega_metadata.py:209-214 | the files kept are exactly the listed files of the submission |
| UploadEgaMetadata.LinkRecordGet | src/scripts/upload_ega_metadata.py:410-416 | a link entry reads back the alias, the sample accession id and the file's provisional id it was made of |
| UploadEgaMetadata.LinkEntryListed | src/scripts/upload_ega_metadata.py:408-416 | a listed file and a sample entry make a link iff the sample's alias is the stem of the file's name |
| UploadEgaMetadata.FileLinksListed | src/scripts/upload_ega_metadata.py:404-416 | a listed file's links are the links of the samples whose alias is its stem |
| UploadEgaMetadata.LinkedMeans | src/scripts/upload_ega_metadata.py:400-418 | with the alias read under "sample_alias", linking never raises, and a link is made iff it is made of a file and a sample whose alias is the stem of the file's name |
| UploadEgaMetadata.LinkedKeeps | src/scripts/upload_ega_metadata.py:404-416 | every file and sample whose alias is the file's stem are linked |
| UploadEgaMetadata.LinkedFrom | src/scripts/upload_ega_metadata.py:404-416 | every link made comes from such a file and sample |
| UploadEgaMetadata.LinkedNone | src/scripts/upload_ega_metadata.py:404-418 | when no sample's alias is the stem of any file's name, nothing is linked |
| UploadEgaMetadata.LinkedAsWritten | src/scripts/upload_ega_metadata.py:409-412 | as written, reading sample["alias"] raises KeyError exactly when the intended linking would find a link, and finds nothing otherwise |
| UploadEgaMetadata.LinkedAsWrittenNothing | src/scripts/upload_ega_metadata.py:409-412 | as written, entries without an "alias" key are never linked: the linking raises or finds nothing |
| UploadEgaMetadata.RunRecordOfBody | src/scripts/upload_ega_metadata.py:295-304 | the run created from the posted body embeds the experiment and the sample it names and carries the file, as the runs query answers it |
| UploadEgaMetadata.CreatedRunMeans | src/scripts/upload_ega_metadata.py:294-310 | one pass posts one run for the entry and keeps its accession id |
| UploadEgaMetadata.CreatedRunsLast | src/scripts/upload_ega_metadata.py:294-313 | the last pass appends its id to those of the passes before |
| UploadEgaMetadata.CreatedRunsMeans | src/scripts/upload_ega_metadata.py:287-315 | on listed entries, one run is posted per entry, in order, with consecutive ids, the ids returned are theirs, and nothing but the runs changes |
| UploadEgaMetadata.CreatedRunsStep | src/scripts/upload_ega_metadata.py:293-313 | one more entry: an earlier error stands, a failing post is the result, otherwise its ids are appended |
| UploadEgaMetadata.CreatedRunsNext | src/scripts/upload_ega_metadata.py:293-313 | the same step, from the ids and the archive the loop holds so far; a failing post ends the loop |
| UploadEgaMetadata.CreatedRunsErrorPersists | src/scripts/upload_ega_metadata.py:311-313 | a run that fails to post stops the loop: the entries after it are not posted |
| UploadEgaMetadata.DatasetStepMeans | src/scripts/upload_ega_metadata.py:329-470 | a policy lookup that raises is the result with nothing changed; without a truthy policy id and a non-empty run-id list nothing is created; otherwise one dataset carrying those run ids and that policy id is created and then the submission is finalised |
| UploadEgaMetadata.DatasetStepKeeps | src/scripts/upload_ega_metadata.py:459-470 | the dataset step changes only the datasets, the issued count and the finalisation |
| UploadEgaMetadata.UploadAsWrittenRegistersNothing | src/scripts/upload_ega_metadata.py:420-470 | as written, an upload never creates a run or a dataset and never finalises: it stops with the state its experiment step left |
| UploadEgaMetadata.RegisteredEntriesListed | src/scripts/upload_ega_metadata.py:236-246 | the entries made from listed samples are the ones the run filter and the linking read |
| UploadEgaMetadata.LinkOfListed | src/scripts/upload_ega_metadata.py:410-416 | a link made from a listed entry carries the sample's accession id, as the run loop reads it |
| UploadEgaMetadata.HasRunGrows | src/scripts/upload_ega_metadata.py:275-277 | a run of the experiment for the sample stays when more runs are appended |
| UploadEgaMetadata.CreatedRunsCover | src/scripts/upload_ega_metadata.py:293-313 | after the runs are created, every linked sample has a run of the experiment |
| UploadEgaMetadata.AppendedExtends | src/scripts/upload_ega_metadata.py:293-313 | creating the runs keeps the old runs and every other kind of record, and gives every link a run |
| UploadEgaMetadata.DatasetStepExtends | src/scripts/upload_ega_metadata.py:459-470 | the dataset step keeps the runs and keeps the archive an extension of the one before |
| UploadEgaMetadata.RunsStepCreates | src/scripts/upload_ega_metadata.py:453-470 | with links, the run step creates their runs, after which every linked sample has a run of the experiment |
| UploadEgaMetadata.RunsStepStops | src/scripts/upload_ega_metadata.py:443-453 | no sample without a run, no file, or no link: the run step changes nothing |
| UploadEgaMetadata.RunsStepLinks | src/scripts/upload_ega_metadata.py:446-470 | with links, the run step is the runs created for them followed by the dataset step |
| UploadEgaMetadata.RunsStepInputs | src/scripts/upload_ega_metadata.py:436-441 | on a listed archive, the samples without runs and the files of the submission are both formed and are exactly those the filters describe |
| UploadEgaMetadata.LinksListed | src/scripts/upload_ega_metadata.py:446-449 | the links formed are the ones the run loop reads |
| UploadEgaMetadata.RunsStepCovers | src/scripts/upload_ega_metadata.py:433-470 | with the alias read under "sample_alias" (the corrected linking; as written the linking raises KeyError, see Findings): after the run step, every registered sample with a file of the submission named after it has a run of the experiment, and only runs, datasets and the finalisation changed |
| UploadEgaMetadata.RunsStepCoversNone | src/scripts/upload_ega_metadata.py:443-453 | when nothing is linked, every registered sample with a file already has a run |
| UploadEgaMetadata.RunsStepCoversLinks | src/scripts/upload_ega_metadata.py:446-457 | when links are made, a registered sample with a file had a run already or is linked and gets one |
| UploadEgaMetadata.ExperimentStepKeeps | src/scripts/upload_ega_metadata.py:164-197 | the experiment step changes only the experiments and the issued count |
| UploadEgaMetadata.ExtendsSelf | src/scripts/upload_ega_metadata.py:420-470 | an archive as the queries answer it extends itself |
| UploadEgaMetadata.UploadCovers | src/scripts/upload_ega_metadata.py:420-470 | with the alias read under "sample_alias" and the created experiment's id read from the first record of the answer (both corrections, see Findings; as written the upload registers no run, see UploadAsWrittenRegistersNothing): after an upload whose experiment step gives a truthy id, every registered sample with a file of the submission named after it has a run of that experiment |
| UploadEgaMetadata.UncoveredHasNoFile | src/scripts/upload_ega_metadata.py:404-409 | once every registered sample with a file has a run, no sample left without a run has a file named after it |
| UploadEgaMetadata.RunsStepSettled | src/scripts/upload_ega_metadata.py:433-470 | when every registered sample with a file already has a run of the experiment, the run step links nothing and leaves the archive unchanged |
| UploadEgaMetadata.UploadIdempotent | src/scripts/upload_ega_metadata.py:420-425 | with the alias read under "sample_alias" and the created experiment's id read from the first record of the answer (both corrections, see Findings; as written the upload registers no run, see UploadAsWrittenRegistersNothing): as the docstring promises, running the upload a second time changes nothing: no experiment, run or dataset is created again, provided the experiment check only ever sees the experiment the first run returned |
| UploadEgaMetadata.RegisterEgaMetadata.constructor | src/scripts/upload_ega_metadata.py:113-132 | the script object holds the configuration and the archive it is given |
| UploadEgaMetadata.RegisterEgaMetadata.ConditionallyCreateExperiment | src/scripts/upload_ega_metadata.py:164-197 | with the created experiment's id read from the first record of the answer (the correction in Findings; as written this raises TypeError after creating, see ExperimentStepAsWrittenRaises): the method's answer and the archive's new contents are those of the experiment step |
| UploadEgaMetadata.RegisterEgaMetadata.GetFileMetadataForFilesInSubmission | src/scripts/upload_ega_metadata.py:199-218 | the loop keeps exactly what the filter on the submission keeps |
| UploadEgaMetadata.RegisterEgaMetadata.SampleMetadataWithAlias | src/scripts/upload_ega_metadata.py:237-244 | the inner loop makes the entry of every sample with the alias, in listed order |
| UploadEgaMetadata.RegisterEgaMetadata.GetSampleMetadataCorrespondingToSamples | src/scripts/upload_ega_metadata.py:220-250 | the nested loops make exactly the registered-sample entries |
| UploadEgaMetadata.RegisterEgaMetadata.RunsOfSample | src/scripts/upload_ega_metadata.py:275-277 | the runs kept are those of the experiment that are of the sample |
| UploadEgaMetadata.RegisterEgaMetadata.RunsOfExperiment | src/scripts/upload_ega_metadata.py:267-269 | the runs kept are those whose experiment has the id |
| UploadEgaMetadata.RegisterEgaMetadata.GetSampleMetadataWithoutRegisteredRuns | src/scripts/upload_ega_metadata.py:252-285 | the loop keeps exactly the samples without a run of the experiment |
| UploadEgaMetadata.RegisterEgaMetadata.LinkFilesToSamples | src/scripts/upload_ega_metadata.py:400-418 | the nested loops make exactly the links of the linking definition, reading the alias under the key given |
| UploadEgaMetadata.RegisterEgaMetadata.CreateRun | src/scripts/upload_ega_metadata.py:294-313 | one pass posts the entry's run; answer and archive are those of one pass |
| UploadEgaMetadata.RegisterEgaMetadata.CreateRuns | src/scripts/upload_ega_metadata.py:287-315 | the loop's ids and the archive's new contents are those of the run-creation definition |
| UploadEgaMetadata.RegisterEgaMetadata.CreateDataset | src/scripts/upload_ega_metadata.py:346-374 | the dataset posted is appended and its answered id is returned |
| UploadEgaMetadata.RegisterEgaMetadata.RegisterDataset | src/scripts/upload_ega_metadata.py:459-470 | the policy, dataset and finalisation calls leave the archive as the dataset step says |
| UploadEgaMetadata.RegisterEgaMetadata.RegisterRuns | src/scripts/upload_ega_metadata.py:436-470 | with the alias read under "sample_alias" (the corrected linking; as written the linking raises KeyError, see Findings): the runs of the registered samples that have none, then the dataset, leave the archive as the run step says |
| UploadEgaMetadata.RegisterEgaMetadata.RegisterMetadata | src/scripts/upload_ega_metadata.py:420-470 | with the alias read under "sample_alias" and the created experiment's id read from the first record of the answer (both corrections, see Findings; as written the upload registers no run, see UploadAsWrittenRegistersNothing): the whole flow leaves the archive as the upload definition says, whose coverage and idempotence are proved above |
| CheckFileValidationStatus.NamedFilesMeans | src/scripts/ega/check_file_validation_status.py:36-41 | a file is kept iff it is in the submission's file list and the stem of the name in its relative path is the sample alias |
| CheckFileValidationStatus.FilesOfSampleNamed | src/scripts/ega/check_file_validation_status.py:36-41 | when every file has a relative path, the loop builds exactly the files named after the sample, in order |
| CheckFileValidationStatus.FilesForSampleMeans | src/scripts/ega/check_file_validation_status.py:32-47 | no file named after the sample raises the "Expected to find at least 1 file" exception; otherwise the files named after the sample are returned |
| CheckFileValidationStatus.FilesForSampleOnlyListed | src/scripts/ega/check_file_validation_status.py:37 | the filter succeeds only if every file carries a relative_path (else KeyError) |
| CheckFileValidationStatus.FileValidMeans | src/scripts/ega/check_file_validation_status.py:56 | a file with all three fields is valid iff both checksums are truthy and its size is positive |
| CheckFileValidationStatus.ValidationStatusAsWrittenAlwaysTrue | src/scripts/ega/check_file_validation_status.py:52-61 | as written, whenever the status is computed it is True |
| CheckFileValidationStatus.ValidationStatusAsWrittenMeans | src/scripts/ega/check_file_validation_status.py:49-63 | as written, the status raises when the intended status raises and is True otherwise |
| CheckFileValidationStatus.ValidationStatusMeans | src/scripts/ega/check_file_validation_status.py:49-63 | with all fields present, the corrected status is True iff every file is valid |
| CheckFileValidationStatus.UnvalidatedFileReportedValid | src/scripts/ega/check_file_validation_status.py:52-61 | a file with an empty encrypted checksum is reported valid as written and not valid by the corrected status |
| CheckFileValidationStatus.FileValidationStatusAsWrittenValid | src/scripts/ega/check_file_validation_status.py:65-76 | as written, the overall status is never False: it is True or None |
| CheckFileValidationStatus.FileValidationStatusAsWrittenMeans | src/scripts/ega/check_file_validation_status.py:49-76 | as written, with all fields present: an empty submission gives None; files none of which is named after the sample raise the "Expected to find at least 1 file" exception; otherwise the status is True whatever the files hold |
| CheckFileValidationStatus.FileValidationStatusMeans | src/scripts/ega/check_file_validation_status.py:65-76 | for the corrected per-file status of Findings row 6 (not the code as written, which FileValidationStatusAsWrittenMeans states): an empty submission gives None; files none of which is named after the sample raise; otherwise the status is whether every file named after the sample is valid |
| CheckFileValidationStatus.FileContent | src/scripts/ega/check_file_validation_status.py:84 | the content is "validated" exactly when the status is True, and "incomplete" otherwise (False or None) |
| CheckFileValidationStatus.GetValidationStatus.constructor | src/scripts/ega/check_file_validation_status.py:24-27 | stores the token, sample alias and submission accession id |
| CheckFileValidationStatus.GetValidationStatus.GetFileInfoForSample | src/scripts/ega/check_file_validation_status.py:32-47 | the loop over the file metadata returns what FilesForSample specifies for the stored alias |
| CheckFileValidationStatus.GetValidationStatus.DetermineValidationStatusForFiles | src/scripts/ega/check_file_validation_status.py:49-63 | the loop as written, appending True for a valid file and nothing otherwise, returns ValidationStatusAsWritten of the files, which is True whenever it does not raise |
| CheckFileValidationStatus.GetValidationStatus.GetFileValidationStatus | src/scripts/ega/check_file_validation_status.py:65-76 | returns FileValidationStatusAsWritten of the fetched metadata for the stored alias, which is never False |
| CheckFileValidationStatus.WriteOutputTsvFiles.constructor | src/scripts/ega/check_file_validation_status.py:80-84 | stores alias, sample id and status, and sets the file content to FileContent of the status |
| ExtractReadsMetadataFromJson.JsonLocationMeans | src/scripts/extract_reads_metadata_from_json.py:23-29 | the location is accepted iff the stripped path has at least four "/"-parts and the fourth starts with "fc-"; fewer parts raise IndexError; the accepted bucket is that fourth part, holds no "/" and starts with "fc-" |
| ExtractReadsMetadataFromJson.SplitAtFirst | src/scripts/extract_reads_metadata_from_json.py:23 | splitting at a first separator gives the text before it followed by the split of the rest |
| ExtractReadsMetadataFromJson.SplitFour | src/scripts/extract_reads_metadata_from_json.py:23-25 | four separator-free parts followed by a rest split into those four parts and the split of the rest |
| ExtractReadsMetadataFromJson.ConsoleLinkLocation | src/scripts/extract_reads_metadata_from_json.py:23-29 | a link https://<host>/<bucket>/<file> whose bucket starts with "fc-" is accepted, and the bucket and file path are read back exactly |
| ExtractReadsMetadataFromJson.BucketPathLocation | src/scripts/extract_reads_metadata_from_json.py:23-29 | for gs://<bucket>/<folder>/<rest> the bucket check is made on the folder: accepted iff the folder starts with "fc-", and the folder is what is taken as the bucket |
| ExtractReadsMetadataFromJson.ReadLengthMeans | src/scripts/extract_reads_metadata_from_json.py:69-84 | a plain number before the first "T" is the read length; a first read that int() refuses gives the sum of its digit runs; one without digits gives 0 |
| ExtractReadsMetadataFromJson.NoDigitsNoInt | src/scripts/extract_reads_metadata_from_json.py:77-79 | int() raises ValueError on a text without digits |
| ExtractReadsMetadataFromJson.SumAgreesWithInt | src/scripts/extract_reads_metadata_from_json.py:74-84 | on a plain number int() succeeds and the sum of its digit runs equals its value, so the two branches agree where both apply |
| ExtractReadsMetadataFromJson.ReadLengthOfPlainStructure | src/scripts/extract_reads_metadata_from_json.py:75-78 | the read structure 76T8B8B76T has read length 76 |
| ExtractReadsMetadataFromJson.ReadLengthOfUmiStructure | src/scripts/extract_reads_metadata_from_json.py:80-84 | the UMI-aware read structure 3M2S71T8B8B3M2S71T has read length 3 + 2 + 71 = 76 |
| ExtractReadsMetadataFromJson.UmiFirstReadNotInt | src/scripts/extract_reads_metadata_from_json.py:77-79 | int() refuses the first read 3M2S71 |
| ExtractReadsMetadataFromJson.UmiFirstReadRuns | src/scripts/extract_reads_metadata_from_json.py:82 | the digit runs of 3M2S71 are 3, 2 and 71, in order |
| ExtractReadsMetadataFromJson.LastKitNameMeans | src/scripts/extract_reads_metadata_from_json.py:42-45 | when every entry has a key and every kit entry a value, the loop ends with the value of the last entry keyed target_capture_kit_name, or "" when there is none |
| ExtractReadsMetadataFromJson.LastKitNameStep | src/scripts/extract_reads_metadata_from_json.py:43-45 | each turn of the loop replaces the kit name iff the entry names the kit |
| ExtractReadsMetadataFromJson.LastKitNameErrPersists | src/scripts/extract_reads_metadata_from_json.py:43-45 | once an entry raises (missing key), the whole loop raises that error |
| ExtractReadsMetadataFromJson.CaptureKitForMeans | src/scripts/extract_reads_metadata_from_json.py:47-52 | the Twist kit iff Exome with the Mercury Twist kit name; the Nextera kit iff Exome with any other name; "Unknown" iff Custom_Selection; "Not Applicable" for every other data type |
| ExtractReadsMetadataFromJson.DetermineTargetCaptureKit | src/scripts/extract_reads_metadata_from_json.py:41-52 | the loop returns what TargetCaptureKit specifies: the last kit entry decides the name, then the data type decides the kit |
| ExtractReadsMetadataFromJson.LibrarySelectionMeans | src/scripts/extract_reads_metadata_from_json.py:94-100 | HybridSelection iff Exome, ShortRangePCR iff RNA, Random for every other product type |
| ExtractReadsMetadataFromJson.MolecularBarcodeMeans | src/scripts/extract_reads_metadata_from_json.py:87-91 | the name is the scheme's name and the sequence is P5, "-", P7, and P5 is read back before the "-" when it holds none |
| ExtractReadsMetadataFromJson.GdcKeysDistinct | src/scripts/extract_reads_metadata_from_json.py:117-133 | the GDC record's attribute keys are pairwise distinct |
| ExtractReadsMetadataFromJson.GdcAttributeValues | src/scripts/extract_reads_metadata_from_json.py:117-133 | there is one value per GDC attribute key |
| ExtractReadsMetadataFromJson.ConversionGet | src/scripts/extract_reads_metadata_from_json.py:9-13 | the conversion table maps Exome to WXS, keeps WGS and RNA, and knows no other key |
| ExtractReadsMetadataFromJson.GdcRecordUnknownDataType | src/scripts/extract_reads_metadata_from_json.py:113 | a library whose data type the table does not know raises KeyError with that data type |
| ExtractReadsMetadataFromJson.ConvertedDataType | src/scripts/extract_reads_metadata_from_json.py:113 | a data type the table converts is Exome, WGS or RNA, and only Exome is renamed (to WXS) |
| ExtractReadsMetadataFromJson.ReadGdcMeans | src/scripts/extract_reads_metadata_from_json.py:107-133 | the reads are the library's data type, project, product family and name, the run's barcode, pairing and read structure, the converted data type, and the lane number as int() of the lane name |
| ExtractReadsMetadataFromJson.LibraryReadsMeans | src/scripts/extract_reads_metadata_from_json.py:113-126 | the library-level reads come from the library's and the run's keys, with the data type converted by the table |
| ExtractReadsMetadataFromJson.LaneReadsMeans | src/scripts/extract_reads_metadata_from_json.py:127-129 | the lane number is int() of the lane name, the pairing is the run's, and the read length comes from the run's read structure |
| ExtractReadsMetadataFromJson.GdcRecordOfFields | src/scripts/extract_reads_metadata_from_json.py:115-135 | the record's attributes hold exactly the read values under their keys, the experiment name is alias.converted.project, the centre is BI, the platform Illumina, and the selection follows the product family |
| ExtractReadsMetadataFromJson.LaneLoop | src/scripts/extract_reads_metadata_from_json.py:110-135 | the loop over a lane's libraries returns LaneRecords: one record per library, in order, or the first error |
| ExtractReadsMetadataFromJson.RunLoop | src/scripts/extract_reads_metadata_from_json.py:107-135 | the loop over a run's lanes returns RunRecords |
| ExtractReadsMetadataFromJson.ExtractReadsDataFromJsonGdc | src/scripts/extract_reads_metadata_from_json.py:102-140 | the three nested loops return GdcRecords of the decoded document |
| ExtractReadsMetadataFromJson.LaneRecordsInOrder | src/scripts/extract_reads_metadata_from_json.py:110-135 | a lane gives one record per library, the k-th being that library's record |
| ExtractReadsMetadataFromJson.RunRecordsInOrder | src/scripts/extract_reads_metadata_from_json.py:107-135 | a run's records are its lanes' records, concatenated in lane order |
| ExtractReadsMetadataFromJson.GdcRecordsInOrder | src/scripts/extract_reads_metadata_from_json.py:107-135 | the document's records are its runs' records, concatenated in run order |
| ExtractReadsMetadataFromJson.DbgapAttributeValues | src/scripts/extract_reads_metadata_from_json.py:154-175 | there is one value per dbGaP attribute key |
| ExtractReadsMetadataFromJson.ExtractReadsDataFromJsonDbgap | src/scripts/extract_reads_metadata_from_json.py:142-178 | the loop over the read groups returns DbgapRecords of the decoded document |
| ExtractReadsMetadataFromJson.DbgapKeysDistinct | src/scripts/extract_reads_metadata_from_json.py:154-175 | the dbGaP record's attribute keys are pairwise distinct |
| ExtractReadsMetadataFromJson.DbgapKeysDiffer | src/scripts/extract_reads_metadata_from_json.py:154-175 | any two positions of the dbGaP key list hold different keys |
| ExtractReadsMetadataFromJson.OrderReadsMeans | src/scripts/extract_reads_metadata_from_json.py:155-160 | the product order and pairing are the read group's; library type and analysis type are the first two "."-parts of analysisType, so reading succeeds only when it holds a "." |
| ExtractReadsMetadataFromJson.ReadDbgapMeans | src/scripts/extract_reads_metadata_from_json.py:148-175 | all reads come from the read group's keys; bait set and sample barcode default to "" when their keys are missing |
| ExtractReadsMetadataFromJson.DbgapAttributeValuesMeans | src/scripts/extract_reads_metadata_from_json.py:154-175 | the work request id repeats the product order and the machine name the model; paired_run is 0 iff pairedRun is "false" and 1 otherwise; the molecular barcode is the one extracted |
| ExtractReadsMetadataFromJson.DbgapRecordFromFields | src/scripts/extract_reads_metadata_from_json.py:152-177 | the record's attributes carry every value under its key |
| DbgapClasses.FormattedDataTypeMeans | src/scripts/dbgap/dbgap_classes.py:21-46 | WGS, RNA, Custom_Selection and N/A get their table pairs, WXS and Exome the same exome pair, every other hashable value the unknown pair, and only a list or dict data type raises (TypeError) |
| DbgapClasses.SampleField | src/scripts/dbgap/dbgap_classes.py:54-64 | a key missing from the sample attributes raises ValueError naming it; a present key gives its value |
| DbgapClasses.FileExtension | src/scripts/dbgap/dbgap_classes.py:70-72 | the extension is computed iff the aggregation path is text, and it is the path's extension without the dot |
| DbgapClasses.SampleAttributesMeans | src/scripts/dbgap/dbgap_classes.py:53-64 | the sample attributes are read iff all seven required keys are present; the first missing key in reading order names the ValueError; each attribute is the dict's value under its key |
| DbgapClasses.SampleOfMeans | src/scripts/dbgap/dbgap_classes.py:48-68 | a constructed sample keeps project, version, alias, data type and md5, holds the study id as text, takes its file type from the aggregation path, names its data file <sample id>.<file type> (read back after the last dot), and holds the telemetry report's information for its alias |
| DbgapClasses.AfterLastSuffix | src/scripts/dbgap/dbgap_classes.py:67 | the text after the last c of a + c + b is b when b holds no c |
| DbgapClasses.AfterLastWhole | src/scripts/dbgap/dbgap_classes.py:67 | the text after the last c is either the whole text or preceded by a c |
| DbgapClasses.SampleInfoComplete | src/scripts/dbgap/dbgap_classes.py:78-86 | a sample whose information came from the report has a biospecimen repository (the report sample's @repository) and a subject phrase, which is non-empty iff the report's subject id is truthy |
| DbgapClasses.SampleInfoValue | src/scripts/dbgap/dbgap_classes.py:68 | the information the report gives for an alias holds the sample's repository and submitted subject id under their plain names |
| DbgapClasses.ReadGroupField | src/scripts/dbgap/dbgap_classes.py:111-122 | a missing required key of the first read group raises KeyError naming it; a present one gives its value |
| DbgapClasses.RequiredFields | src/scripts/dbgap/dbgap_classes.py:111-122 | the required fields, when all are read, are one per key |
| DbgapClasses.RequiredFieldsMeans | src/scripts/dbgap/dbgap_classes.py:111-122 | reading succeeds iff every key is present, gives each key's value in order, and otherwise raises for the first missing key |
| DbgapClasses.ConstantsMeans | src/scripts/dbgap/dbgap_classes.py:110-128 | the constants are read iff every required key is present; the first missing one names the KeyError |
| DbgapClasses.ConstantsValues | src/scripts/dbgap/dbgap_classes.py:110-128 | every constant is the first read group's own value; work_request_id is None when missing, and research_project_id, bait_set, product_order_id and sample_material_type are "" when missing |
| DbgapClasses.ImageMeans | src/scripts/dbgap/dbgap_classes.py:165-175 | a set comprehension succeeds iff the template succeeds on every record, and holds exactly the template's results |
| DbgapClasses.ImageOfSameRecords | src/scripts/dbgap/dbgap_classes.py:165-175 | record order and repeats do not change a set comprehension: two lists holding the same records give the same set or both fail |
| DbgapClasses.TemplatesOfTextRecord | src/scripts/dbgap/dbgap_classes.py:153-163 | on a record of text fields, the read group id is the first five characters of the run barcode, a dot and the lane; the platform unit is barcode.lane.sequence; and the platform-unit-lib adds .library |
| DbgapClasses.PlatformUnitLibExtendsUnit | src/scripts/dbgap/dbgap_classes.py:159-163 | on one record the platform-unit-lib is the platform unit, a dot and the library name |
| DbgapClasses.ImageElement | src/scripts/dbgap/dbgap_classes.py:165-175 | every element of a set comprehension comes from some record |
| DbgapClasses.ImageHolds | src/scripts/dbgap/dbgap_classes.py:165-175 | the template's result on every record is in the set |
| DbgapClasses.PlatformUnitLibsExtendUnits | src/scripts/dbgap/dbgap_classes.py:168-169 | every platform-unit-lib is some record's platform unit, itself in the platform-unit set, followed by a dot and that record's library name |
| DbgapClasses.AggregatesOfSameRecords | src/scripts/dbgap/dbgap_classes.py:148-175 | two lists holding the same records aggregate to the same eight sets, or both fail |
| DbgapClasses.EntryOf | src/scripts/dbgap/dbgap_classes.py:135-139 | an entry read from the metadata has its key, and goes to the library-construction dict iff the key contains "library" |
| DbgapClasses.BucketsMeans | src/scripts/dbgap/dbgap_classes.py:132-144 | the loop succeeds iff every entry can be read; a key containing "library" is only in the library-construction dict and any other only in the target-capture dict, each with the value of the last entry carrying it ("" for a falsy value) |
| DbgapClasses.BucketsStopsAt | src/scripts/dbgap/dbgap_classes.py:135-139 | an entry that cannot be read ends the loop with its exception |
| DbgapClasses.SubDataToDict | src/scripts/dbgap/dbgap_classes.py:130-146 | the loop returns SubData of the metadata: the two dicts when the metadata is non-empty, None otherwise |
| DbgapClasses.SubmissionMetadataMeans | src/scripts/dbgap/dbgap_classes.py:96-108 | without submission_metadata, or with one holding "items", the metadata is empty; otherwise its text, with single quotes made double and None made null, is parsed and split into the two kit dicts |
| DbgapClasses.QuotesMadeDouble | src/scripts/dbgap/dbgap_classes.py:103 | the text handed to the JSON parser has no single quote left |
| DbgapClasses.ReadGroupOfMeans | src/scripts/dbgap/dbgap_classes.py:89-94 | an empty record list raises IndexError; the read group is built iff the first record's constants, the aggregates over all records and the first record's metadata are, and then it is made of those three |
| DbgapClasses.PairingAgrees | src/scripts/dbgap/dbgap_classes.py:177-181 | the pairing code is P exactly when the layout is paired-end; the code is P or S and the layout paired-end or single-end |
| DbgapClasses.PdoOrWrMeans | src/scripts/dbgap/dbgap_classes.py:183-188 | ValueError iff both the product order and the work request are None; a truthy product order wins; otherwise the work request is shown as text, "None" included |
| DbgapClasses.PdoOrWrOfMissingOrder | src/scripts/dbgap/dbgap_classes.py:124-188 | a read group without product_order_id gets "" for it, so the order id never raises and is "None" when work_request_id is missing too |
| DbgapClasses.LibraryDescriptorOfTable | src/scripts/dbgap/dbgap_classes.py:190-210 | WholeGenomeShotgun, cDNAShotgun and HybridSelection get their table entries whatever the analysis type |
| DbgapClasses.LibraryDescriptorOutsideTable | src/scripts/dbgap/dbgap_classes.py:209-220 | any other library type gets the cDNA entry iff it is one of the two cDNA library types or the analysis type is cDNA, and the analysis type is not AssemblyWithoutReference; otherwise ValueError (TypeError for an unhashable type) |
| DbgapClasses.MatchAt | src/scripts/dbgap/dbgap_classes.py:223 | a match captures a non-empty run of digits |
| DbgapClasses.MatchAtMeans | src/scripts/dbgap/dbgap_classes.py:223 | the pattern [SBM](\d+)T matches at p capturing d iff p holds S, B or M, followed by exactly the digits d and then T |
| DbgapClasses.FirstMatch | src/scripts/dbgap/dbgap_classes.py:223 | a search result is a non-empty run of digits |
| DbgapClasses.FirstFoundMeans | src/scripts/dbgap/dbgap_classes.py:223 | the leftmost find is what is found at the first position that finds anything, and nothing iff no position does |
| DbgapClasses.FirstMatchFound | src/scripts/dbgap/dbgap_classes.py:223 | the search is the leftmost find among the positions' matches |
| DbgapClasses.FirstMatchMeans | src/scripts/dbgap/dbgap_classes.py:222-225 | re.search finds the match at the leftmost matching position, and nothing iff no position matches |
| DbgapClasses.ReadLengthNoSegmentLetter | src/scripts/dbgap/dbgap_classes.py:225 | a read structure holding no S, B or M reads length 0 |
| DbgapClasses.ReadLengthOfLeadingSegment | src/scripts/dbgap/dbgap_classes.py:222-225 | a structure that opens with a segment letter, digits d and T reads the value of d |
| DbgapClasses.ReadLengthOfTemplateOnlyStructure | src/scripts/dbgap/dbgap_classes.py:222-225 | "151T151T" reads 0 |
| DbgapClasses.ReadLengthOfBarcodedStructure | src/scripts/dbgap/dbgap_classes.py:222-225 | "76T8B8B76T" reads 76, from its first match "B76T" |
| DbgapClasses.UmiStructureMatches | src/scripts/dbgap/dbgap_classes.py:223 | in "3M2S71T8B8B3M2S71T" the pattern does not match at the first three positions and matches at the fourth, capturing 71 |
| DbgapClasses.ReadLengthOfUmiStructure | src/scripts/dbgap/dbgap_classes.py:222-225 | "3M2S71T8B8B3M2S71T" reads 71 |
| DbgapClasses.ExperimentSubmitterIdMeans | src/scripts/dbgap/dbgap_classes.py:233-238 | the experiment id raises the order id's error first, then the data type's; it is built iff both succeed; its eight parts have the data type's spaces made underscores and are read back by splitting at dots when none holds a dot |
| DbgapClasses.Title | src/scripts/dbgap/dbgap_classes.py:243-249 | a title opens with the repository and " Illumina " and ends with the subject phrase |
| DbgapClasses.TitleMeans | src/scripts/dbgap/dbgap_classes.py:243-249 | the title is built iff the repository, the library descriptor and the subject phrase are |
| DbgapClasses.ExperimentAttributesMeans | src/scripts/dbgap/dbgap_classes.py:267-284 | the attributes are built iff the order id is; there are ten, plus gssr_id as the eleventh exactly when the sample barcode is truthy; work_request_or_pdo is the tenth |
| DbgapClasses.KitPairs | src/scripts/dbgap/dbgap_classes.py:292 | there is one key=value text per entry |
| DbgapClasses.KitConstructionMeans | src/scripts/dbgap/dbgap_classes.py:286-295 | without metadata the kit text is empty; with it the text exists for either kit name, ends with a full stop and mentions key=value for every entry |
| DbgapClasses.DesignDescriptionWithoutMetadata | src/scripts/dbgap/dbgap_classes.py:297-303 | a read group without metadata is described as "Illumina sequencing of Homo sapiens via " and the selection alone, and only the library descriptor can fail |
| DbgapClasses.InstrumentModel | src/scripts/dbgap/dbgap_classes.py:350 | the HiSeq X 10 is never reported; every other model is reported as it is |
| DbgapClasses.AttributeList | src/scripts/dbgap/dbgap_classes.py:353-356 | one TAG/VALUE pair per attribute, in order |
| DbgapClasses.ExperimentTextsOf | src/scripts/dbgap/dbgap_classes.py:305-362 | the experiment's texts carry its submitter id |
| DbgapClasses.ExperimentDict | src/scripts/dbgap/dbgap_classes.py:305-362 | the experiment document is built iff its texts are, and its SUBMITTER_ID text is the experiment's submitter id |
| DbgapClasses.ExperimentElementIds | src/scripts/dbgap/dbgap_classes.py:310-321 | the EXPERIMENT element carries the submitter id, the title and the study accession |
| DbgapClasses.ExperimentElementParts | src/scripts/dbgap/dbgap_classes.py:322-357 | the EXPERIMENT element carries the instrument model, the attribute list and the DESIGN element |
| DbgapClasses.ExperimentDesignParts | src/scripts/dbgap/dbgap_classes.py:322-347 | DESIGN carries the description, the library descriptor's strategy, source and selection, a layout that is always PAIRED, the spot length and the forward and reverse read specs, the reverse one starting after the read length |
| DbgapClasses.ReadSpecMeans | src/scripts/dbgap/dbgap_classes.py:251-259 | a read labelled forward is the Forward read and any other the Reverse one; index and base coordinate are kept |
| DbgapClasses.SpotLengthMeans | src/scripts/dbgap/dbgap_classes.py:261-265 | the spot length is twice the read length for a truthy paired-run flag and the read length otherwise, and fails exactly when the read length does |
| DbgapClasses.ExperimentTextsSucceed | src/scripts/dbgap/dbgap_classes.py:305-362 | the experiment's texts are computed iff its submitter id, title, design description and read length are |
| DbgapClasses.ExperimentSetHolds | src/scripts/dbgap/dbgap_classes.py:306-310 | EXPERIMENT sits under EXPERIMENT_SET beside the experiment schema location |
| DbgapClasses.RunSubmitterIdMeans | src/scripts/dbgap/dbgap_classes.py:378-381 | the run id fails iff some flowcell barcode is not text, and it ends with the file type after its last dot |
| DbgapClasses.RunSubmitterIdOfOneFlowcell | src/scripts/dbgap/dbgap_classes.py:378-381 | a read group on a single flowcell gets barcode.alias.project.version.filetype whatever the set's iteration order |
| DbgapClasses.RunTextsOf | src/scripts/dbgap/dbgap_classes.py:386-408 | the run texts slice the assembly out of the reference sequence (characters 16 to 39), join the flowcells and read group ids with ", " and carry the order id |
| DbgapClasses.RunAttributeValues | src/scripts/dbgap/dbgap_classes.py:386-408 | one value per run attribute key |
| DbgapClasses.RunTextsSucceed | src/scripts/dbgap/dbgap_classes.py:386-408 | the run texts are computed iff the reference sequence can be sliced, every aggregated set joins as text and the order id is known |
| DbgapClasses.RunAttributesLayout | src/scripts/dbgap/dbgap_classes.py:386-408 | the eighteen run attributes in written order, each key with the value it is given |
| DbgapClasses.RunAttributesMeans | src/scripts/dbgap/dbgap_classes.py:386-408 | the run attributes are built exactly when the run texts are, and lay them out under their keys |
| DbgapClasses.JoinsAsText | src/scripts/dbgap/dbgap_classes.py:393-404 | a set of texts joins in any iteration order |
| DbgapClasses.AggregatesOfTemplates | src/scripts/dbgap/dbgap_classes.py:165-169 | the aggregates' first four sets are those the templates build |
| DbgapClasses.TemplateImagesParts | src/scripts/dbgap/dbgap_classes.py:165-169 | each template set is the records' image under its template |
| DbgapClasses.TemplatesGiveText | src/scripts/dbgap/dbgap_classes.py:153-163 | the four templates give only text |
| DbgapClasses.ImageJoins | src/scripts/dbgap/dbgap_classes.py:398-402 | a set built by a template giving only text joins with ", " in any order |
| DbgapClasses.TemplateSetsJoin | src/scripts/dbgap/dbgap_classes.py:398-402 | the read-group-id, molecular-index, platform-unit and platform-unit-lib sets always join |
| DbgapClasses.ImageIsText | src/scripts/dbgap/dbgap_classes.py:165-169 | a template giving only text gives a set of texts |
| DbgapClasses.SubmitterIdText | src/scripts/dbgap/dbgap_classes.py:416-421 | a SUBMITTER_ID element's text is the id |
| DbgapClasses.RunDict | src/scripts/dbgap/dbgap_classes.py:410-449 | the run document is built iff the run's ids are; its SUBMITTER_ID is the run's id and its EXPERIMENT_REF the experiment's |
| DbgapClasses.RunDictSucceeds | src/scripts/dbgap/dbgap_classes.py:410-449 | the run document is built iff the run id, the experiment id and the run texts are; the run id's error comes first, then the experiment id's |
| DbgapClasses.RunElementIds | src/scripts/dbgap/dbgap_classes.py:415-429 | the RUN element carries the run's id and the experiment's id |
| DbgapClasses.RunElementParts | src/scripts/dbgap/dbgap_classes.py:430-444 | the RUN element names the data file, its type, the MD5 method and the sample's checksum, and lists the run attributes |
| DbgapClasses.RunSetHolds | src/scripts/dbgap/dbgap_classes.py:411-415 | RUN sits under RUN_SET beside the run schema location |
| DbgapClasses.ExperimentTextsId | src/scripts/dbgap/dbgap_classes.py:314 | the experiment's texts start from its submitter id |
| DbgapClasses.RunIdsParts | src/scripts/dbgap/dbgap_classes.py:419-442 | the run's ids are its own submitter id, the experiment's and the run attributes |
| DbgapClasses.RunRefersToExperiment | src/scripts/dbgap/dbgap_classes.py:422-429 | whenever both documents are built, the run's EXPERIMENT_REF carries the experiment's SUBMITTER_ID |
| DbgapClasses.ExperimentIdInSet | src/scripts/dbgap/dbgap_classes.py:310-316 | the experiment document carries the experiment's submitter id |
| DbgapClasses.RunIdsInSet | src/scripts/dbgap/dbgap_classes.py:415-429 | the run document carries the run's and the experiment's ids |
| DbgapClasses.RunDictMeans | src/scripts/dbgap/dbgap_classes.py:410-449 | the RUN element carries the run's submitter id and lists the run attributes as TAG/VALUE pairs in order |
| DbgapClasses.SubmissionAliasParts | src/scripts/dbgap/dbgap_classes.py:469-470 | a submission alias splits at its dots back into BI, the study and the year when the study has no dot |
| DbgapClasses.ActionsMeans | src/scripts/dbgap/dbgap_classes.py:476-487 | the actions are built iff the experiment id and the run id are; they are PROTECT, RELEASE, then ADD of the experiment's file and of the run's file |
| DbgapClasses.CreateActions | src/scripts/dbgap/dbgap_classes.py:476-487 | stores the actions under ACTIONS in the submission dict, or raises and leaves the dict unchanged |
| DbgapClasses.CreateSubmissionAttributes | src/scripts/dbgap/dbgap_classes.py:489-499 | stores the Submission Site / NCBI_PROTECTED attribute under SUBMISSION_ATTRIBUTES |
| DbgapClasses.CreateSubmissionDocument | src/scripts/dbgap/dbgap_classes.py:501-527 | returns the submission document with the actions and attributes stored in its SUBMISSION element |
| DbgapClasses.SubmissionDocumentMeans | src/scripts/dbgap/dbgap_classes.py:501-527 | the document is built iff the actions are; its SUBMISSION holds the six head entries, then ACTIONS, then SUBMISSION_ATTRIBUTES |
| DbgapClasses.SubmissionHeadKeys | src/scripts/dbgap/dbgap_classes.py:508-521 | the head written first has neither ACTIONS nor SUBMISSION_ATTRIBUTES |
| DbgapClassesLegacy.Fields | src/scripts/dbgap_classes.py:16-25 | the fields, when all are read, are one per key |
| DbgapClassesLegacy.FieldsMeans | src/scripts/dbgap_classes.py:16-161 | reading succeeds iff every key is present, gives each key's value in order, and otherwise raises KeyError for the first missing key |
| DbgapClassesLegacy.SamplesNamedOfText | src/scripts/dbgap_classes.py:39-43 | for a text alias the sample filter is the telemetry report's own filter of the Sample elements naming it |
| DbgapClassesLegacy.TelemetryOrder | src/scripts/dbgap_classes.py:35-55 | a report without children or without an admin bio project raises IndexError; an empty study raises "Study not registered with Dbgap"; no matching sample "Sample not registered with Dbgap"; several "Could not find specific sample in report"; otherwise it succeeds iff the study has a name, with the study, the first admin bio project, the one sample and the study name |
| DbgapClassesLegacy.TelemetryNeedsOneSample | src/scripts/dbgap_classes.py:43-54 | no Sample element naming the alias raises "Sample not registered"; two of them raise "Could not find specific sample"; on success some element names it and the sample's submitted_sample_id is the alias |
| DbgapClassesLegacy.SampleOfMeans | src/scripts/dbgap_classes.py:13-26 | a sample with all its attributes is built iff its telemetry check succeeds, raising that check's error otherwise, and then keeps the study id as text, the alias, the data file, the project, and the report's sample information and bio project |
| DbgapClassesLegacy.FormattedDataType | src/scripts/dbgap_classes.py:99-123 | a data type outside the table raises KeyError naming it |
| DbgapClassesLegacy.FormattedDataTypeMeans | src/scripts/dbgap_classes.py:99-123 | exactly WGS, RNA, Exome, Custom_Selection and N/A have a pair, each the same pair as in the newer table |
| DbgapClassesLegacy.SubjectString | src/scripts/dbgap_classes.py:125-131 | the subject phrase can be read iff the sample information has submitted_subject_id, and it is empty iff that id is falsy |
| DbgapClassesLegacy.ConstantsMeans | src/scripts/dbgap_classes.py:136-162 | the constants are read iff every subscripted field is present; the first missing one names the KeyError; the submission metadata is the record's own |
| DbgapClassesLegacy.ConstantsNameLibrary | src/scripts/dbgap_classes.py:140-149 | the product order, library name, library type, work request and analysis type are the record's own |
| DbgapClassesLegacy.ConstantsDescribeReads | src/scripts/dbgap_classes.py:150-160 | the pairing, read structure, root sample id and barcode are the record's own, and the nominal length is the text of the mean insert size |
| DbgapClassesLegacy.SubDataAsWritten | src/scripts/dbgap_classes.py:165-180 | as written, only falsy metadata avoids an error (NameError on the undefined loop variable), and it gives None; apart from that NameError it answers exactly what the corrected loop over its own parameter answers |
| DbgapClassesLegacy.SubDataAsWrittenRejects | src/scripts/dbgap_classes.py:165-180 | non-empty readable metadata raises NameError as written, while the intended conversion returns the two kit dicts |
| DbgapClassesLegacy.AttributesOf | src/scripts/dbgap_classes.py:196-204 | one attributes value per record, each that record's "attributes" |
| DbgapClassesLegacy.ImageAttributed | src/scripts/dbgap_classes.py:196-199 | a template applied through "attributes" gives the same set as the template applied to the records' attributes |
| DbgapClassesLegacy.AggregatesAsNewer | src/scripts/dbgap_classes.py:183-204 | the aggregates are the newer module's aggregates over the records' attributes |
| DbgapClassesLegacy.ReadGroupOfMeans | src/scripts/dbgap_classes.py:136-163 | with `sub_data_to_dict` looping over its own parameter (the correction in Findings; as written a first record with non-empty metadata items raises NameError, see SubDataAsWritten): an empty record list raises IndexError; a built read group holds the first record's constants, the metadata converted from its items, and the aggregates over every record |
| DbgapClassesLegacy.PairingAgrees | src/scripts/dbgap_classes.py:206-216 | the pairing code is P exactly when the run is paired (truthy flag) and the layout paired-end; the code is P or S and the layout paired-end or single-end |
| DbgapClassesLegacy.PdoOrWrAsWritten | src/scripts/dbgap_classes.py:218-224 | as written, the order id is returned iff the product order is truthy; otherwise the undefined name raises NameError |
| DbgapClassesLegacy.PdoOrWrMeans | src/scripts/dbgap_classes.py:218-224 | the intended order id is the truthy product order, else the truthy work request, else ""; when the code as written returns, it agrees |
| DbgapClassesLegacy.PdoOrWrAsWrittenRaises | src/scripts/dbgap_classes.py:218-224 | a read group with an empty product order and a work request raises NameError as written, while the intended id is the work request |
| DbgapClassesLegacy.GetLibraryDescriptor | src/scripts/dbgap_classes.py:226-264 | the dict built step by step is the descriptor dict of the branch that applies |
| DbgapClassesLegacy.LibraryDescriptorMeans | src/scripts/dbgap_classes.py:232-262 | WholeGenomeShotgun takes the first branch; otherwise the cDNA rule takes the second; HybridSelection is taken iff the library type is HybridSelection and the cDNA rule does not apply; no branch iff neither |
| DbgapClassesLegacy.DescriptorDictMeans | src/scripts/dbgap_classes.py:226-355 | with a branch taken both humanized strings, the NCBI strategy and the selection can be read; without one they raise KeyError |
| DbgapClassesLegacy.PartGet | src/scripts/dbgap_classes.py:233-240 | both strings of a descriptor part are read back |
| DbgapClassesLegacy.ReadLength | src/scripts/dbgap_classes.py:266-270 | a falsy read structure raises "read structure not populated for read <root sample id>"; a read length is int() of the text before the first T |
| DbgapClassesLegacy.ReadLengthOfLeadingDigits | src/scripts/dbgap_classes.py:266-268 | a structure opening with digits d then T reads d's value |
| DbgapClassesLegacy.SpotLengthMeans | src/scripts/dbgap_classes.py:303-316 | the spot length and the reverse base coordinate exist iff the read length does; the spot length is twice it for a paired run and it otherwise; the coordinate is one past it |
| DbgapClassesLegacy.ExperimentSubmitterIdMeans | src/scripts/dbgap_classes.py:279-284 | with `get_pdo_or_wr` reading the work request from the read group (the correction in Findings; as written a falsy product order raises NameError, see PdoOrWrAsWritten): the experiment id is built iff the data type has a pair, and raises its error otherwise; its eight parts have the data-type constant's spaces made underscores and split back at dots when none holds a dot |
| DbgapClassesLegacy.Title | src/scripts/dbgap_classes.py:286-292 | a title opens with the repository and " Illumina " and ends with the subject phrase |
| DbgapClassesLegacy.TitleMeans | src/scripts/dbgap_classes.py:286-292 | without a descriptor branch the title raises KeyError on humanized_string; with one it is built iff the sample information has a subject id |
| DbgapClassesLegacy.ExperimentAttributesMeans | src/scripts/dbgap_classes.py:319-335 | with `get_pdo_or_wr` reading the work request from the read group (the correction in Findings; as written a falsy product order raises NameError, see PdoOrWrAsWritten): ten attributes, the tenth work_request_or_pdo, plus gssr_id last exactly when the sample barcode is truthy |
| DbgapClassesLegacy.KitConstruction | src/scripts/dbgap_classes.py:337-352 | the kit text built step by step is KitText of the metadata |
| DbgapClassesLegacy.AppendEntries | src/scripts/dbgap_classes.py:347-348 | the loop appends key=value of each entry in turn, with nothing between them |
| DbgapClassesLegacy.EntriesTextStep | src/scripts/dbgap_classes.py:347-348 | one more entry appends its text |
| DbgapClassesLegacy.EntriesTextContains | src/scripts/dbgap_classes.py:347-348 | each entry's key=value is part of the entries' text |
| DbgapClassesLegacy.KitTextMeans | src/scripts/dbgap_classes.py:337-352 | without metadata the text is empty; with it the text opens with the kit's prefix, ends with a full stop and contains every entry as key=value |
| DbgapClassesLegacy.DesignDescriptionMeans | src/scripts/dbgap_classes.py:354-360 | the description fails iff no descriptor branch applies, with KeyError on selection; without metadata it is "Illumina sequencing of Homo sapiens via " and the selection |
| DbgapClassesLegacy.FileType | src/scripts/dbgap_classes.py:489-490 | the file type exists iff the data file is text; it is the last "."-part, holds no dot and ends the file name |
| DbgapClassesLegacy.FileTypeOfName | src/scripts/dbgap_classes.py:489-490 | the file type of name.ext with a dot-free ext is ext |
| DbgapClassesLegacy.RunSubmitterIdMeans | src/scripts/dbgap_classes.py:492-496 | the run id exists iff every flowcell barcode is text and the data file is text, and it ends with the file type after its last dot |
| DbgapClassesLegacy.RunSubmitterIdOfOneFlowcell | src/scripts/dbgap_classes.py:492-496 | a read group on one flowcell gets barcode.alias.project.version.filetype whatever the iteration order |
| DbgapClassesLegacy.ReadLengthsDifferWithoutSegments | src/scripts/dbgap_classes.py:266-268 | a structure d T rest without S, B or M reads d here, while the newer search reads 0 |
| DbgapClassesLegacy.ReadLengthsDifferOnLeadingSegment | src/scripts/dbgap_classes.py:266-268 | a structure opening with S, B or M, digits d and T raises ValueError here, while the newer search reads d |
| DbgapClassesLegacy.DescriptorsDifferOnHybridCDna | src/scripts/dbgap_classes.py:242-262 | HybridSelection with analysis type cDNA takes the cDNA branch here, while the newer table gives hybrid selection |
| DbgapClassesLegacy.DescriptorEntriesDiffer | src/scripts/dbgap_classes.py:232-252 | the whole-genome selection is "random" and the cDNA NCBI strategy "RNA_SEQ" here, unlike the newer "RANDOM" and "RNA-Seq" |
| DbgapClassesLegacy.DataTypesDiffer | src/scripts/dbgap_classes.py:99-123 | WXS raises KeyError here but has the exome pair in the newer table; every type outside the newer table raises here and gets the unknown pair there |
| Python.SplitParts | src/scripts/extract_reads_metadata_from_json.py:23 | str.split on one character: no part holds the separator, there are at least two parts iff the separator occurs, and a text without it is its own single part |
| Python.JoinSplit | src/scripts/extract_reads_metadata_from_json.py:23-25 | joining the parts of a split with the separator gives the text back |
| Python.DigitRunsOf | src/scripts/extract_reads_metadata_from_json.py:82 | re.findall of digit runs finds nothing in a text without digits and the whole text in a text of digits |
| Python.ParseIntOfDigits | src/scripts/extract_reads_metadata_from_json.py:77-78 | int() of a non-empty run of digits is its decimal value |

## Left out

- HTTP, authentication and SFTP are not modelled: every `requests` call, `LoginAndGetToken`, the GDC API wrapper, Terra paging, the secret manager, paramiko and the crypt4gh subprocess. They talk to other systems. Their answers (query results, telemetry reports, GDC responses) are inputs, and status codes and headers are not modelled.
- src/scripts/ega/check_file_validation_status.py:9-14 imports `get_file_metadata_for_all_files_in_submission` and `SecretManager` from src/scripts/ega/utils.py, which defines neither (it defines `get_file_metadata_for_all_files_in_inbox`, line 48), so the script fails at import as written. The model reads past the import: the file list the call at line 68 would fetch is an input.
- Reading files and writing output files is not modelled: the metadata JSON read from the storage bucket, the JSON written for the dbGaP reads, the TSV files and the pandas-based writers. The JSON text and its decoding are parameters.
- `WriteOutputTsvFiles` (src/scripts/ega/check_file_validation_status.py:79-96) is modelled only up to the text it writes. Both files are opened for reading (lines 88 and 93), so as written nothing could be written to them, and `csv.DictWriter` would separate the columns with commas.
- `extract_reads_data_from_workspace_metadata` (src/scripts/extract_reads_metadata_from_json.py:54-67) is not modelled. It is a Terra API call followed by a file write.
- The query URL of the upload's run lookup lacks the "submissions/" path segment (src/scripts/upload_ega_metadata.py:261). URLs are not modelled, only the answer.
- `get_center_name` and `download_bioproject_xml` (src/scripts/dbgap_classes.py) are not modelled. They are FTP and file I/O.
- `validate_xml` and `write_xml_file` (src/scripts/dbgap/dbgap_classes.py:534-562) are not modelled. They need downloaded XSDs, lxml and xmltodict. The dict trees they serialise are modelled.
- In src/scripts/dbgap_classes.py, the XML builders `set_*` and `create_file` and the older `Submission` class are not modelled. They build and write lxml trees.
- `get_date`, `get_run_date`, the submission comment, the year of `Submission.get_alias` and `create_random_uuid` are not computed. They read the clock or draw randomness, so the date, comment and year are parameters and UUIDs are not modelled.
- The timestamp sent with the EGA finalisation is not modelled. Finalisation is a flag of the archive state.
- EGA identifiers are not modelled as EGA forms them. Provisional ids and accession ids are the ones `EgaArchive.Archive` issues: a counter, and a prefix followed by the counter.
- `insert_size` is a float in the source. It is modelled as a `real`, and `int()` of a positive value as its floor (`NominalLength`). No floating-point rounding is modelled.
- The order in which Python iterates a set is not modelled. The joins over sets take an enumeration of the set as a parameter, so the string is fixed only once that order is given. Properties are stated about the set of joined parts.
- `_set_submission_metadata` stores `[]` when there is no submission metadata. The model stores `None`. Both are falsy, and `kit_construction` only tests truthiness.
- `str()` of a non-string JSON value is Python's text for it (`Show`). A `TypeError` from adding a non-string into a string is not modelled. Fields the formatters read as text are assumed to hold text, or are rendered with `Show`.
- src/scripts/link_gdc_entities.py:73 is missing a comma between two dict entries, so the file fails to parse as written. The model reads the literal as if the comma were present. In that reading, the second "platform" entry ("Illumina") replaces the first.
- src/scripts/ega/check_file_validation_status.py:132 reads `args.password`, which the argument parser never defines. This is in the command-line block, which is not modelled.
- Logging, `print`, the argparse `__main__` blocks and the thin command-line scripts are not modelled. Logging and `print` have no effect on the modelled values; the argument parsing of src/scripts/upload_ega_metadata.py does, in two ways the model does not follow, because its configuration is an input:
  - `-sample_aliases` (lines 561-565) is a single string, passed at line 584 where the class expects a list, so the loop at line 236 iterates its characters: from the command line, only one-character aliases can match a registered sample. `Config.sampleAliases` is a list of aliases.
  - `-dataset_title` defaults to "Illumina" (line 547), so from the command line the title is never empty and the template of lines 123-126 (`Defaults`) is never reached.
- Python.Value has no floating-point numbers: JSON numbers are integers. `str()` of a float `mean_insert_size` (DbgapClassesLegacy.ReadGroupOfMeans, the nominal length), `filesize > 0` on a float (CheckFileValidationStatus.PositiveSize, which raises TypeError for any non-integer) and `int(2.0)` (Python.PyInt) are not modelled.
- Python.ParseInt accepts only an optional sign and ASCII digits inside surrounding whitespace. Python's `int()` also accepts single underscores between digits ("7_6" is 76) and non-ASCII decimal digits, so for such text the model differs from Python: ExtractReadsMetadataFromJson.ReadLengthFromReadStructure reads "7_6T8B" as 7 + 6 = 13 where Python reads 76, DbgapClassesLegacy.ReadLength raises ValueError where Python reads 76, and Python.PyInt of such text raises. DbgapClasses.ReadLength matches only ASCII digits, while the regex's `\d` also matches other decimal digits.
- Python.PathName is the text after the last "/". `Path(p).name` first drops a trailing "/" and "." components ("a/b/" names "b", where PathName gives ""), so FileStem and StemOf, and the linking of files to samples built on them, assume file paths that do not end in "/" or "/.".
- RegisterExperimentAndRunMetadata.ExperimentFound, the search that compares every experiment, is stated and proved but not used by the registration flows: both EGA modules keep the first-experiment-only check as written, which is why the idempotence lemmas of their flows carry a proviso on the existence check.
- RunsStepCovers (UploadEgaMetadata.RunsStepCovers): holds for the corrected linking (alias read under "sample_alias"). As written the linking raises KeyError whenever a link would be made (UploadEgaMetadata.LinkedAsWritten).
- UploadCovers (UploadEgaMetadata.UploadCovers): holds for the corrected linking and the created experiment's id read from the first record of the answer. As written an upload registers no run (UploadEgaMetadata.UploadAsWrittenRegistersNothing).
- UploadIdempotent (UploadEgaMetadata.UploadIdempotent): holds for the same two corrections as UploadCovers. As written no upload registers a run or a dataset (UploadEgaMetadata.UploadAsWrittenRegistersNothing), and the idempotence of that as-written flow is not stated.
- ConditionallyCreateExperiment (UploadEgaMetadata.RegisterEgaMetadata.ConditionallyCreateExperiment): computes the corrected experiment step. As written the step raises TypeError after creating (UploadEgaMetadata.ExperimentStepAsWrittenRaises).
- RegisterRuns (UploadEgaMetadata.RegisterEgaMetadata.RegisterRuns): computes the run step with the corrected linking (see RunsStepCovers).
- RegisterMetadata (UploadEgaMetadata.RegisterEgaMetadata.RegisterMetadata): computes the corrected upload. The upload as written is UploadEgaMetadata.UploadAsWritten.
- ReadGroupOfMeans (DbgapClassesLegacy.ReadGroupOfMeans): holds for `sub_data_to_dict` looping over its own parameter. As written a first record with non-empty metadata items raises NameError; wherever the code as written returns, it returns what the corrected loop returns (DbgapClassesLegacy.SubDataAsWritten).
- ExperimentSubmitterIdMeans (DbgapClassesLegacy.ExperimentSubmitterIdMeans): holds for the corrected `get_pdo_or_wr`. As written a read group with a falsy product order raises NameError (DbgapClassesLegacy.PdoOrWrAsWritten); wherever it returns, the id is the same (DbgapClassesLegacy.PdoOrWrMeans).
- ExperimentAttributesMeans (DbgapClassesLegacy.ExperimentAttributesMeans): holds for the corrected `get_pdo_or_wr`, as ExperimentSubmitterIdMeans does.
- SubmitReadsMeans (GdcExtractReadsData.SubmitReadsMeans): holds for the intended submission, whose answer is the operation the transaction ended with. As written `submit_metadata` is called with one argument of two and raises TypeError (GdcExtractReadsData.SubmitReadsAsWrittenMeans); and it has no return statement, so its answer would be None and neither the "close" nor the "commit" test could hold (GdcExtractReadsData.SubmitReadsOfNoneReply).
- FileValidationStatusMeans (CheckFileValidationStatus.FileValidationStatusMeans): holds for the corrected per-file status, which records False for a file that is not valid. As written an unvalidated file appends nothing and the status is True (CheckFileValidationStatus.FileValidationStatusAsWrittenMeans); the class methods follow the code as written.
- The constant tables of src/scripts/ega/ega_utils.py are copied only where the modelled code uses them.
- `Sample` and `ReadGroup` (both dbGaP files), `MetadataSubmission`, `Experiment` and `Run` are modelled as values built by functions that may raise. Their constructors set every field once and nothing mutates them afterwards, so the step-by-step assignment of `self.*` fields is not modelled.

## Findings

| source | as written | input that shows it | evidently intended | confidence | as-written member | corrected member |
|---|---|---|---|---|---|---|
| src/services/dgbap_telemetry_report.py:30-46 | `extract_sample_level_info(alias)` has no `self` parameter but reads `self`, and line 31 calls the bare name `call_telemetry_report()`, which is defined at line 15 only as a method, so it is unbound in the body | a call that reaches the body, for example on a report that registers the alias exactly once: a NameError is raised before the report is read; the instance call `DbgapTelemetryWrapper(phs_id=p).extract_sample_level_info(alias)` raises TypeError before line 31 runs | read the report and classify the sample, raising "not registered", then "study not registered", then "ambiguous" | high, not executed | DgbapTelemetryReport.SampleLevelInfoAsWritten, DgbapTelemetryReport.AsWrittenRejectsRegisteredSample | DgbapTelemetryReport.SampleLevelInfoOrder |
| src/scripts/dbgap_classes.py:165-180 | `sub_data_to_dict` loops over `submission_metadata`, but its parameter is named `submissionMetadata` | any non-empty submission metadata: a NameError is raised | sort every entry into library construction or target capture, as src/scripts/dbgap/dbgap_classes.py:130-146 does | high, not executed | DbgapClassesLegacy.SubDataAsWritten, DbgapClassesLegacy.SubDataAsWrittenRejects | DbgapClasses.BucketsMeans, DbgapClasses.SubDataToDict |
| src/scripts/dbgap_classes.py:218-224 | `get_pdo_or_wr` tests the bare name `work_request_id` | a read group with a falsy product order id: a NameError is raised | return the work request id when there is no product order id, else "" | high, not executed | DbgapClassesLegacy.PdoOrWrAsWritten, DbgapClassesLegacy.PdoOrWrAsWrittenRaises | DbgapClassesLegacy.PdoOrWrMeans |
| src/scripts/upload_ega_metadata.py:400-418 | `_link_files_to_samples` reads `sample["alias"]` from entries that carry only "sample_alias" | one inbox file whose name stem is a registered sample's alias: a KeyError is raised, so no run, dataset or finalisation follows | read the alias under "sample_alias" | high, not executed | UploadEgaMetadata.LinkedAsWritten, UploadEgaMetadata.UploadAsWrittenRegistersNothing | UploadEgaMetadata.LinkedMeans |
| src/scripts/upload_ega_metadata.py:188-191 | the created experiment's id is read as `response.json()["provisional_id"]`, while the other create calls of the file, and of src/scripts/ega/register_experiment_and_run_metadata.py, read the answer as a list of records | any submission without that experiment: a TypeError is raised after the experiment is created | read the id from the first record of the answer. The corrected member reads that record's "accession_id", the key this file's existence check returns (line 156); the code reads "provisional_id", as does src/scripts/ega/register_experiment_and_run_metadata.py:156, so which key was meant is a choice of the model | medium (depends on the archive answering a list), not executed | UploadEgaMetadata.ExperimentStepAsWrittenRaises | UploadEgaMetadata.ExperimentStepMeans |
| src/scripts/ega/check_file_validation_status.py:52-61 | only True is ever appended to `validation_statuses`, so `all(...)` always holds | one file of the sample with an empty checksum: it is reported valid | the status holds iff every file of the sample is valid | high, not executed | CheckFileValidationStatus.ValidationStatusAsWrittenAlwaysTrue, CheckFileValidationStatus.UnvalidatedFileReportedValid | CheckFileValidationStatus.ValidationStatusMeans |
| src/scripts/ega/register_experiment_and_run_metadata.py:104-110 | the `return None` of `_experiment_exists` sits inside the loop, so only the first listed experiment is compared; src/scripts/upload_ega_metadata.py:151-157 has the same shape | a submission whose first experiment is of another study and whose second is this one: None is answered and a duplicate experiment is created on every run | return None only after every experiment was compared | high, not executed | RegisterExperimentAndRunMetadata.FirstExperimentOnly, RegisterExperimentAndRunMetadata.ExperimentPastFirstMissed | RegisterExperimentAndRunMetadata.ExperimentFoundAppended |
| src/scripts/gdc/extract_reads_data.py:87-98 | `submit_reads` calls `GdcApiWrapper(...).submit_metadata(formatted_reads)` with one argument, while src/services/gdc_api.py:33 declares `submit_metadata(self, input_data, metadata)`; the method also has no return statement, so `operation` could only be None | any read metadata that formats, for example the empty list: TypeError (missing 'metadata') is raised | submit the formatted reads and raise when the transaction's operation is "close" | high, not executed | GdcExtractReadsData.SubmitReadsAsWrittenMeans, GdcExtractReadsData.SubmitReadsAsWrittenRejects | GdcExtractReadsData.SubmitReadsMeans |
