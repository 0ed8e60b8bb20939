/**
 * Normalisation of a read-group query answer from the workspace service: the
 * attributes of each listed result are collected, results without attributes
 * are skipped.
 */
module ExtractReadsData {
  import opened Outcome
  import opened Python

  /** The truthy attributes of the results, in order; the first result that is not
      an object with an "attributes" key decides the error. */
  function ResultAttributes(results: seq<Value>): Result<seq<Value>>
  {
    if results == [] then Ok([])
    else
      var front := ResultAttributes(results[..|results| - 1]);
      var a := Subscript(results[|results| - 1], "attributes");
      if front.Err? then front
      else if a.Err? then Err(a.error)
      else if Truthy(a.value) then Ok(front.value + [a.value])
      else front
  }

  /** What `formatReads` returns for a decoded response. */
  function FormattedReads(readsData: Dict): Result<seq<Value>>
  {
    var results :- Lookup(readsData, "results");
    if !Truthy(results) then Ok([])
    else if results.List? then ResultAttributes(results.items)
    else Err(TypeError("results is not a list of objects"))
  }

  /** `formatReads`: walks the results and appends every truthy "attributes". */
  method FormatReads(readsData: Dict) returns (r: Result<seq<Value>>)
    ensures r == FormattedReads(readsData)
  {
    var results := Lookup(readsData, "results");
    if results.Err? {
      return Err(results.error);
    }
    var readsArray: seq<Value> := [];
    if Truthy(results.value) {
      if !results.value.List? {
        return Err(TypeError("results is not a list of objects"));
      }
      var items := results.value.items;
      var i := 0;
      while i < |items|
        invariant 0 <= i <= |items|
        invariant ResultAttributes(items[..i]) == Ok(readsArray)
      {
        assert items[..i + 1][..i] == items[..i];
        var attributes := Subscript(items[i], "attributes");
        if attributes.Err? {
          ResultAttributesErrPersists(items, i + 1);
          return Err(attributes.error);
        }
        if Truthy(attributes.value) {
          readsArray := readsArray + [attributes.value];
        }
        i := i + 1;
      }
      assert items[..i] == items;
    }
    return Ok(readsArray);
  }

  /** An error among the first results is the error of all of them. */
  lemma {:induction false} ResultAttributesErrPersists(results: seq<Value>, k: nat)
    requires k <= |results| && ResultAttributes(results[..k]).Err?
    ensures ResultAttributes(results) == ResultAttributes(results[..k])
    decreases |results| - k
  {
    if k < |results| {
      assert results[..k + 1][..k] == results[..k];
      ResultAttributesErrPersists(results, k + 1);
    } else {
      assert results[..k] == results;
    }
  }

  /** The output is never longer than the results, and holds only truthy values. */
  lemma {:induction false} ResultAttributesBounded(results: seq<Value>)
    ensures ResultAttributes(results).Ok? ==> |ResultAttributes(results).value| <= |results|
    ensures ResultAttributes(results).Ok? ==>
              forall j :: 0 <= j < |ResultAttributes(results).value| ==> Truthy(ResultAttributes(results).value[j])
  {
    if results != [] {
      ResultAttributesBounded(results[..|results| - 1]);
    }
  }

  /** When every result carries truthy attributes, the output is exactly those
      attributes, one per result and in the same order. */
  lemma {:induction false} ResultAttributesAllKept(results: seq<Value>)
    requires forall j :: 0 <= j < |results| ==> results[j].Obj? && HasKey(results[j].fields, "attributes")
    requires forall j :: 0 <= j < |results| ==> Truthy(GetOr(results[j].fields, "attributes", Null))
    ensures ResultAttributes(results).Ok?
    ensures |ResultAttributes(results).value| == |results|
    ensures forall j :: 0 <= j < |results| ==>
              ResultAttributes(results).value[j] == GetOr(results[j].fields, "attributes", Null)
  {
    if results != [] {
      var front := results[..|results| - 1];
      ResultAttributesAllKept(front);
    }
  }

  /** A result whose attributes are empty adds nothing to the output. */
  lemma EmptyAttributesSkipped(results: seq<Value>, read: Value)
    requires read.Obj? && HasKey(read.fields, "attributes") && !Truthy(GetOr(read.fields, "attributes", Null))
    ensures ResultAttributes(results + [read]) == ResultAttributes(results)
  {
    assert (results + [read])[..|results|] == results;
  }

  /** A missing or falsy "results" entry yields no reads, or the KeyError. */
  lemma FalsyResultsGiveNothing(readsData: Dict)
    requires HasKey(readsData, "results") && !Truthy(GetOr(readsData, "results", Null))
    ensures FormattedReads(readsData) == Ok([])
  {
  }
}
