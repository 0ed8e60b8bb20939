/**
 * Preparation of a sample and its read groups for the two upload tables: the
 * first sample of a metadata document is lifted out, receives the project and
 * the program, gives up its read groups, and every read group is stamped with
 * its read-group id and the sample alias, in place.
 */
module CreateSampleTsv {
  import opened Outcome
  import opened Python
  import opened Each

  /** `f"{aggregation_project}.{sample_alias}"`, shared by every read-group id. */
  function SubmitterIdConstant(sampleMetadata: Dict): (r: Result<string>)
    ensures r.Err? <==> !HasKey(sampleMetadata, "aggregation_project") || !HasKey(sampleMetadata, "sample_alias")
    ensures !HasKey(sampleMetadata, "aggregation_project") ==> r == Err(KeyError("aggregation_project"))
  {
    var project :- Lookup(sampleMetadata, "aggregation_project");
    var alias :- Lookup(sampleMetadata, "sample_alias");
    Ok(Join(".", [Show(project), Show(alias)]))
  }

  /** `f"{flow_cell_barcode}.{lane_number}.{constant}"` for one read group. */
  function ReadGroupId(readGroup: Value, constant: string): Result<string> {
    var barcode :- Subscript(readGroup, "flow_cell_barcode");
    var lane :- Subscript(readGroup, "lane_number");
    Ok(Join(".", [Show(barcode), Show(lane), constant]))
  }

  /** The read-group id is the dot-join of barcode, lane, aggregation project and
      sample alias, and it splits back into those four when none holds a dot. */
  lemma ReadGroupIdFields(readGroup: Value, sampleMetadata: Dict)
    requires SubmitterIdConstant(sampleMetadata).Ok?
    requires ReadGroupId(readGroup, SubmitterIdConstant(sampleMetadata).value).Ok?
    ensures readGroup.Obj? && HasKey(readGroup.fields, "flow_cell_barcode") && HasKey(readGroup.fields, "lane_number")
    ensures var parts := [Show(At(readGroup, "flow_cell_barcode")), Show(At(readGroup, "lane_number")),
                          Show(GetOr(sampleMetadata, "aggregation_project", Null)), Show(GetOr(sampleMetadata, "sample_alias", Null))];
            var id := ReadGroupId(readGroup, SubmitterIdConstant(sampleMetadata).value).value;
            id == Join(".", parts)
            && ((forall i :: 0 <= i < 4 ==> '.' !in parts[i]) ==> Split(id, '.') == parts)
  {
    var parts := [Show(At(readGroup, "flow_cell_barcode")), Show(At(readGroup, "lane_number")),
                  Show(GetOr(sampleMetadata, "aggregation_project", Null)), Show(GetOr(sampleMetadata, "sample_alias", Null))];
    var id := ReadGroupId(readGroup, SubmitterIdConstant(sampleMetadata).value).value;
    var constant := [parts[2], parts[3]];
    assert Lookup(sampleMetadata, "aggregation_project").value == GetOr(sampleMetadata, "aggregation_project", Null);
    assert Lookup(sampleMetadata, "sample_alias").value == GetOr(sampleMetadata, "sample_alias", Null);
    assert SubmitterIdConstant(sampleMetadata).value == Join(".", constant);
    JoinTail(".", parts[..2], constant);
    assert parts[..2] + constant == parts;
    assert parts[..2] + [Join(".", constant)] == [parts[0], parts[1], Join(".", constant)];
    if forall i :: 0 <= i < 4 ==> '.' !in parts[i] {
      SplitJoin(parts, '.');
    }
  }

  /** Joining a list whose last part is itself a join is joining the parts flat. */
  lemma {:induction false} JoinTail(sep: string, front: seq<string>, back: seq<string>)
    requires back != []
    ensures Join(sep, front + [Join(sep, back)]) == Join(sep, front + back)
    decreases |front|
  {
    if front != [] {
      assert (front + [Join(sep, back)])[1..] == front[1..] + [Join(sep, back)];
      assert (front + back)[1..] == front[1..] + back;
      JoinTail(sep, front[1..], back);
    } else {
      assert front + back == back;
      assert front + [Join(sep, back)] == [Join(sep, back)];
    }
  }

  /** One read group after the loop body: `read_group_id` and `sample_alias` set,
      every other key untouched. */
  function Pushed(readGroup: Value, constant: string, alias: Value): (r: Result<Value>)
  {
    var id :- ReadGroupId(readGroup, constant);
    Ok(Obj(Put(Put(readGroup.fields, "read_group_id", Str(id)), "sample_alias", alias)))
  }

  /** A stamped read group holds the id and the alias, and every other key of the
      original with its value; stamping fails exactly when the id cannot be formed. */
  lemma PushedKeys(readGroup: Value, constant: string, alias: Value, k: string)
    ensures Pushed(readGroup, constant, alias).Ok? <==> ReadGroupId(readGroup, constant).Ok?
    ensures Pushed(readGroup, constant, alias).Err? ==>
              Pushed(readGroup, constant, alias).error == ReadGroupId(readGroup, constant).error
    ensures ReadGroupId(readGroup, constant).Ok? ==>
              var stamped := Pushed(readGroup, constant, alias).value;
              readGroup.Obj? && stamped.Obj?
              && Get(stamped.fields, "read_group_id") == Some(Str(ReadGroupId(readGroup, constant).value))
              && Get(stamped.fields, "sample_alias") == Some(alias)
              && (k != "read_group_id" && k != "sample_alias" ==> Get(stamped.fields, k) == Get(readGroup.fields, k))
  {
  }

  /** The loop body of `pushReadGroupsToTSV` for a given constant and alias. */
  function Stamp(constant: string, alias: Value): Value -> Result<Value> {
    readGroup => Pushed(readGroup, constant, alias)
  }

  /** The whole of `pushReadGroupsToTSV`: a missing key of the sample metadata is
      raised before any read group is touched. */
  function Pushing(groups: seq<Value>, sampleMetadata: Dict): (seq<Value>, Option<Exc>) {
    var constant := SubmitterIdConstant(sampleMetadata);
    if constant.Err? then (groups, Some(constant.error))
    else Applied(groups, Stamp(constant.value, GetOr(sampleMetadata, "sample_alias", Null)))
  }

  /** `pushReadGroupsToTSV`: stamps the read groups of the list in place. */
  method PushReadGroupsToTsv(readGroups: array<Value>, sampleMetadata: Dict) returns (err: Option<Exc>)
    modifies readGroups
    ensures (readGroups[..], err) == Pushing(old(readGroups[..]), sampleMetadata)
  {
    var constant := SubmitterIdConstant(sampleMetadata);
    if constant.Err? {
      return Some(constant.error);
    }
    err := UpdateEach(readGroups, Stamp(constant.value, GetOr(sampleMetadata, "sample_alias", Null)));
  }

  /** What the source promises of `pushReadGroupsToTSV` when it returns: every read
      group of the list, in the same place, has gained its read-group id and the
      sample alias and kept all its other keys. */
  lemma PushingStampsEveryGroup(groups: seq<Value>, sampleMetadata: Dict, j: nat, k: string)
    requires Pushing(groups, sampleMetadata).1.None? && j < |groups|
    ensures SubmitterIdConstant(sampleMetadata).Ok?
    ensures var constant := SubmitterIdConstant(sampleMetadata).value;
            var stamped := Pushing(groups, sampleMetadata).0[j];
            ReadGroupId(groups[j], constant).Ok? && groups[j].Obj? && stamped.Obj?
            && Get(stamped.fields, "read_group_id") == Some(Str(ReadGroupId(groups[j], constant).value))
            && Get(stamped.fields, "sample_alias") == Get(sampleMetadata, "sample_alias")
            && (k != "read_group_id" && k != "sample_alias" ==> Get(stamped.fields, k) == Get(groups[j].fields, k))
  {
    var constant := SubmitterIdConstant(sampleMetadata).value;
    var alias := GetOr(sampleMetadata, "sample_alias", Null);
    AppliedSucceeds(groups, Stamp(constant, alias));
    PushedKeys(groups[j], constant, alias, k);
  }

  /** When a read group cannot be stamped, the first such one decides the
      KeyError or TypeError, the groups before it are stamped and the rest keep
      their old contents. */
  lemma PushingStopsAtFirstFailure(groups: seq<Value>, sampleMetadata: Dict, j: nat)
    requires SubmitterIdConstant(sampleMetadata).Ok? && j < |groups|
    requires ReadGroupId(groups[j], SubmitterIdConstant(sampleMetadata).value).Err?
    requires forall i :: 0 <= i < j ==> ReadGroupId(groups[i], SubmitterIdConstant(sampleMetadata).value).Ok?
    ensures Pushing(groups, sampleMetadata).1 == Some(ReadGroupId(groups[j], SubmitterIdConstant(sampleMetadata).value).error)
    ensures forall i :: j <= i < |groups| ==> Pushing(groups, sampleMetadata).0[i] == groups[i]
  {
    var constant := SubmitterIdConstant(sampleMetadata).value;
    var alias := GetOr(sampleMetadata, "sample_alias", Null);
    AppliedStopsAtFirstFailure(groups, Stamp(constant, alias), j);
  }

  /** `metadata['samples'][0]`. */
  function FirstSample(metadata: Dict): Result<Value> {
    var samples :- Lookup(metadata, "samples");
    Item(samples, 0)
  }

  /** Lines 7-11 of `createTSV`: the sample metadata with project and program put
      in and its read groups popped out, together with the popped read groups. */
  function ReshapedSample(metadata: Dict): (r: Result<(Dict, Value)>)
    ensures r.Err? <==> FirstSample(metadata).Err? || !FirstSample(metadata).value.Obj?
                        || !HasKey(metadata, "project") || !HasKey(metadata, "program")
                        || !HasKey(FirstSample(metadata).value.fields, "read_groups")
    ensures !HasKey(metadata, "samples") ==> r == Err(KeyError("samples"))
    ensures r.Ok? ==> Get(r.value.0, "project") == Get(metadata, "project")
                      && Get(r.value.0, "program") == Get(metadata, "program")
                      && !HasKey(r.value.0, "read_groups")
    ensures r.Ok? ==> Some(r.value.1) == Get(FirstSample(metadata).value.fields, "read_groups")
    ensures r.Ok? ==> forall k :: k != "project" && k != "program" && k != "read_groups" ==>
                        Get(r.value.0, k) == Get(FirstSample(metadata).value.fields, k)
  {
    var first :- FirstSample(metadata);
    var project :- Lookup(metadata, "project");
    if !first.Obj? then Err(TypeError("object does not support item assignment"))
    else
      var program :- Lookup(metadata, "program");
      var withProject := Put(first.fields, "project", project);
      var withProgram := Put(withProject, "program", program);
      var popped :- Pop(withProgram, "read_groups");
      Ok((popped.1, popped.0))
  }

  /** `createTSV` up to the writing of the tables: the reshaped sample metadata and
      the stamped read groups, which the writer then puts out row by row.  The
      header row of the read table is taken from `readGroups[0]` after the
      stamping, so an empty list of read groups raises IndexError (an empty object
      KeyError). */
  function CreatedTsv(metadata: Dict): Result<(Dict, seq<Value>)> {
    var reshaped :- ReshapedSample(metadata);
    var _ :- SubmitterIdConstant(reshaped.0);
    var items :- Iterate(reshaped.1);
    var pushed := Pushing(items, reshaped.0);
    if pushed.1.Some? then Err(pushed.1.value)
    else if pushed.0 == [] then (if reshaped.1.Obj? then Err(KeyError("0")) else Err(IndexError))
    else Ok((reshaped.0, pushed.0))
  }

  /** What `createTSV` hands to the writers: the sample metadata as reshaped, and
      one stamped read group per original read group, at least one of them; every
      error of the reshaping, of the submitter-id constant (formed before the read
      groups are iterated), of the iteration and of the stamping is raised, in
      that order. */
  lemma CreatedTsvMeans(metadata: Dict)
    ensures ReshapedSample(metadata).Err? ==> CreatedTsv(metadata) == Err(ReshapedSample(metadata).error)
    ensures ReshapedSample(metadata).Ok? && SubmitterIdConstant(ReshapedSample(metadata).value.0).Err? ==>
              CreatedTsv(metadata) == Err(SubmitterIdConstant(ReshapedSample(metadata).value.0).error)
    ensures ReshapedSample(metadata).Ok? && SubmitterIdConstant(ReshapedSample(metadata).value.0).Ok?
            && Iterate(ReshapedSample(metadata).value.1).Err? ==>
              CreatedTsv(metadata) == Err(Iterate(ReshapedSample(metadata).value.1).error)
    ensures CreatedTsv(metadata).Ok? ==>
              var (sampleMetadata, groups) := ReshapedSample(metadata).value;
              CreatedTsv(metadata).value.0 == sampleMetadata
              && Iterate(groups).Ok? && |CreatedTsv(metadata).value.1| == |Iterate(groups).value| >= 1
              && Pushing(Iterate(groups).value, sampleMetadata) == (CreatedTsv(metadata).value.1, None)
    ensures ReshapedSample(metadata).Ok? ==>
              var (sampleMetadata, groups) := ReshapedSample(metadata).value;
              SubmitterIdConstant(sampleMetadata).Ok? && Iterate(groups).Ok?
              && Pushing(Iterate(groups).value, sampleMetadata).1.Some? ==>
                CreatedTsv(metadata) == Err(Pushing(Iterate(groups).value, sampleMetadata).1.value)
    ensures ReshapedSample(metadata).Ok? ==>
              var (sampleMetadata, groups) := ReshapedSample(metadata).value;
              Iterate(groups).Ok? && Iterate(groups).value == [] && SubmitterIdConstant(sampleMetadata).Ok? ==>
                CreatedTsv(metadata) == Err(if groups.Obj? then KeyError("0") else IndexError)
  {
    var reshaped := ReshapedSample(metadata);
    if reshaped.Ok? {
      var (sampleMetadata, groups) := reshaped.value;
      var items := Iterate(groups);
      if items.Ok? {
        var pushed := Pushing(items.value, sampleMetadata);
        assert |pushed.0| == |items.value|;
        if pushed.1.None? && pushed.0 != [] {
          assert CreatedTsv(metadata) == Ok((sampleMetadata, pushed.0));
        }
      }
    }
  }

  /** `createTSV` up to the writing of the tables. */
  method CreateTsv(metadata: Dict) returns (r: Result<(Dict, seq<Value>)>)
    ensures r == CreatedTsv(metadata)
  {
    var reshaped := ReshapedSample(metadata);
    if reshaped.Err? {
      return Err(reshaped.error);
    }
    var (sampleMetadata, groups) := reshaped.value;
    var constant := SubmitterIdConstant(sampleMetadata);
    if constant.Err? {
      return Err(constant.error);
    }
    var items := Iterate(groups);
    if items.Err? {
      return Err(items.error);
    }
    var readGroups := ArrayOf(items.value);
    var err := PushReadGroupsToTsv(readGroups, sampleMetadata);
    assert Pushing(items.value, sampleMetadata) == (readGroups[..], err);
    if err.Some? {
      return Err(err.value);
    }
    if readGroups.Length == 0 {
      return if groups.Obj? then Err(KeyError("0")) else Err(IndexError);
    }
    return Ok((sampleMetadata, readGroups[..]));
  }
}
