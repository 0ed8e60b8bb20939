/**
 * The dataset step of an EGA submission: the one policy whose title is the
 * configured policy title is selected from the archive's policy list, and the
 * dataset of the submission's runs is registered under it.  The archive's
 * answers are inputs; the requests themselves are not modelled.
 */
module RegisterDatasetAndFinalizeSubmission {
  import opened Outcome
  import opened Python

  /** Whether a policy record carries the title. */
  predicate TitledAs(policy: Value, title: string) {
    policy.Obj? && Get(policy.fields, "title") == Some(Str(title))
  }

  /** `[a["accession_id"] for a in policies if a["title"] == policy_title]`: the
      title is read first, the accession id only of a policy with the title. */
  function PolicyIds(policies: seq<Value>, title: string): Result<seq<Value>> {
    if policies == [] then Ok([])
    else
      var t :- Subscript(policies[0], "title");
      if t == Str(title) then
        var id :- Subscript(policies[0], "accession_id");
        var rest :- PolicyIds(policies[1..], title);
        Ok([id] + rest)
      else PolicyIds(policies[1..], title)
  }

  /** The ids kept are those of the policies with the title: each one is the id of
      such a policy, and a policy with the title has its id kept. */
  lemma {:induction false} PolicyIdsKept(policies: seq<Value>, title: string)
    requires PolicyIds(policies, title).Ok?
    ensures forall i :: 0 <= i < |policies| && TitledAs(policies[i], title) ==>
                          HasKey(policies[i].fields, "accession_id")
                          && At(policies[i], "accession_id") in PolicyIds(policies, title).value
    ensures forall v :: v in PolicyIds(policies, title).value ==>
                          exists i :: 0 <= i < |policies| && TitledAs(policies[i], title) && At(policies[i], "accession_id") == v
  {
    if policies != [] {
      var rest := policies[1..];
      PolicyIdsKept(rest, title);
      assert forall i :: 0 <= i < |rest| ==> rest[i] == policies[i + 1];
      forall v | v in PolicyIds(policies, title).value
        ensures exists i :: 0 <= i < |policies| && TitledAs(policies[i], title) && At(policies[i], "accession_id") == v
      {
        if v !in PolicyIds(rest, title).value {
          assert TitledAs(policies[0], title) && At(policies[0], "accession_id") == v;
        } else {
          var i :| 0 <= i < |rest| && TitledAs(rest[i], title) && At(rest[i], "accession_id") == v;
          assert policies[i + 1] == rest[i];
        }
      }
    }
  }

  /** No id is kept iff no policy has the title, and more than one iff two have;
      exactly one policy with the title leaves its id alone. */
  lemma {:induction false} PolicyIdsCount(policies: seq<Value>, title: string)
    requires PolicyIds(policies, title).Ok?
    ensures PolicyIds(policies, title).value == [] <==>
              forall i :: 0 <= i < |policies| ==> !TitledAs(policies[i], title)
    ensures |PolicyIds(policies, title).value| > 1 <==>
              exists i, j :: 0 <= i < j < |policies| && TitledAs(policies[i], title) && TitledAs(policies[j], title)
  {
    if policies != [] {
      var rest := policies[1..];
      PolicyIdsCount(rest, title);
      assert forall i :: 0 <= i < |rest| ==> rest[i] == policies[i + 1];
      var ids := PolicyIds(policies, title).value;
      if |ids| > 1 {
        if TitledAs(policies[0], title) {
          var j :| 0 <= j < |rest| && TitledAs(rest[j], title);
          assert TitledAs(policies[j + 1], title);
        } else {
          var i, j :| 0 <= i < j < |rest| && TitledAs(rest[i], title) && TitledAs(rest[j], title);
          assert TitledAs(policies[i + 1], title) && TitledAs(policies[j + 1], title);
        }
      }
      if exists i, j :: 0 <= i < j < |policies| && TitledAs(policies[i], title) && TitledAs(policies[j], title) {
        var i, j :| 0 <= i < j < |policies| && TitledAs(policies[i], title) && TitledAs(policies[j], title);
        assert TitledAs(rest[j - 1], title);
        if i > 0 {
          assert TitledAs(rest[i - 1], title);
        }
      }
    }
  }

  /** `_get_policy_accession_id` on a successful answer: exactly one policy with
      the title is required. */
  function PolicyAccessionId(policies: seq<Value>, title: string): Result<Value> {
    var ids :- PolicyIds(policies, title);
    if ids == [] then Err(ValueError("Expected to find one DAC, but found zero for policy " + title))
    else if |ids| > 1 then
      Err(ValueError("Expected to find one DAC, but found " + IntToString(|ids|) + " for policy " + title))
    else Ok(ids[0])
  }

  /** No policy with the title raises ValueError. */
  lemma PolicyNoneMatches(policies: seq<Value>, title: string)
    requires PolicyIds(policies, title).Ok?
    requires forall i :: 0 <= i < |policies| ==> !TitledAs(policies[i], title)
    ensures PolicyAccessionId(policies, title) == Err(ValueError("Expected to find one DAC, but found zero for policy " + title))
  {
    PolicyIdsCount(policies, title);
  }

  /** Two policies with the title raise ValueError. */
  lemma PolicySeveralMatch(policies: seq<Value>, title: string, i: nat, j: nat)
    requires PolicyIds(policies, title).Ok?
    requires i < j < |policies| && TitledAs(policies[i], title) && TitledAs(policies[j], title)
    ensures PolicyAccessionId(policies, title).Err? && PolicyAccessionId(policies, title).error.ValueError?
  {
    PolicyIdsCount(policies, title);
  }

  /** A single policy with the title gives its accession id. */
  lemma PolicyOneMatches(policies: seq<Value>, title: string, k: nat)
    requires PolicyIds(policies, title).Ok?
    requires k < |policies| && TitledAs(policies[k], title)
    requires forall i :: 0 <= i < |policies| && i != k ==> !TitledAs(policies[i], title)
    ensures PolicyAccessionId(policies, title) == Ok(At(policies[k], "accession_id"))
  {
    PolicyIdsCount(policies, title);
    PolicyIdsKept(policies, title);
    var ids := PolicyIds(policies, title).value;
    assert !exists i, j :: 0 <= i < j < |policies| && TitledAs(policies[i], title) && TitledAs(policies[j], title);
    assert |ids| == 1;
    var i :| 0 <= i < |policies| && TitledAs(policies[i], title) && At(policies[i], "accession_id") == ids[0];
  }

  /** The dataset type of `_create_dataset`. */
  function DatasetType(libraryStrategy: string): (r: string)
    ensures r == "Whole genome sequencing" <==> libraryStrategy == "WGS"
    ensures r != "Whole genome sequencing" ==> r == "Exome sequencing"
  {
    if libraryStrategy == "WGS" then "Whole genome sequencing" else "Exome sequencing"
  }

  /** The body `_create_dataset` posts. */
  function DatasetPayload(title: string, description: string, libraryStrategy: string,
                          policyId: Value, runIds: seq<Value>): Value
  {
    Obj([("title", Str(title)), ("description", Str(description)), ("dataset_types", List([Str(DatasetType(libraryStrategy))])),
         ("policy_accession_id", policyId), ("run_provisional_ids", List(runIds))])
  }

  /** The payload carries the run ids and the policy id unchanged, and one dataset
      type chosen by the library strategy. */
  lemma DatasetPayloadCarries(title: string, description: string, libraryStrategy: string,
                              policyId: Value, runIds: seq<Value>)
    ensures var p := DatasetPayload(title, description, libraryStrategy, policyId, runIds);
            && At(p, "policy_accession_id") == policyId
            && At(p, "run_provisional_ids") == List(runIds)
            && At(p, "dataset_types") == List([Str(DatasetType(libraryStrategy))])
            && At(p, "title") == Str(title) && At(p, "description") == Str(description)
  {
    var f := DatasetPayload(title, description, libraryStrategy, policyId, runIds).fields;
    assert f[0].0 == "title" && f[1].0 == "description" && f[2].0 == "dataset_types";
    assert f[3].0 == "policy_accession_id" && f[4].0 == "run_provisional_ids";
    assert Get(f, "description") == Get(f[1..], "description");
    assert Get(f, "dataset_types") == Get(f[1..], "dataset_types") == Get(f[2..], "dataset_types");
    assert Get(f, "policy_accession_id") == Get(f[1..], "policy_accession_id") == Get(f[2..], "policy_accession_id")
           == Get(f[3..], "policy_accession_id");
    assert Get(f, "run_provisional_ids") == Get(f[1..], "run_provisional_ids") == Get(f[2..], "run_provisional_ids")
           == Get(f[3..], "run_provisional_ids") == Get(f[4..], "run_provisional_ids");
  }

  /** `[r["accession_id"] for r in answer][0]` on the archive's answer to the post:
      every record is read, then the first id is taken (IndexError when the answer
      is empty). */
  function CreatedDatasetId(answer: seq<Value>): Result<Value> {
    FirstField(answer, "accession_id")
  }

  /** The dataset id is the first record's accession id once every record has one. */
  lemma CreatedDatasetIdMeans(answer: seq<Value>)
    ensures CreatedDatasetId(answer).Ok? <==>
              answer != [] && forall i :: 0 <= i < |answer| ==> answer[i].Obj? && HasKey(answer[i].fields, "accession_id")
    ensures CreatedDatasetId(answer).Ok? ==> CreatedDatasetId(answer) == Ok(At(answer[0], "accession_id"))
    ensures answer == [] ==> CreatedDatasetId(answer) == Err(IndexError)
  {
    EachFieldMeans(answer, "accession_id");
  }
}
